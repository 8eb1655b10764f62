/**
 * The supervisor of the Joplin CLI server (src/jopper/joplin_service.py).
 *
 * Everything the supervisor asks of the operating system is answered by an
 * `Os` value given to each call: whether a process handle is still alive,
 * what the port answers, the outcome of running or spawning a command, the
 * readiness probes and whether a terminated process ends within the grace
 * period. The `settings.json` file of the profile directory is the field
 * `settings`, and two ghost traces record the commands run and the signals
 * sent.
 */
module JoplinService {
  import opened Wrappers
  import opened Text

  // ---------------------------------------------------------------------
  // Paths (`pathlib.PurePosixPath`)
  // ---------------------------------------------------------------------

  /** A POSIX path: its root ("", "/" or "//") and its components. */
  datatype PosixPath = PosixPath(root: string, parts: seq<string>)

  /** A component as `pathlib` keeps it: not empty, not ".", no slash. */
  predicate IsPart(p: string) {
    p != "" && p != "." && '/' !in p
  }

  /** The pieces between slashes that `pathlib` keeps: empty pieces (from
      repeated or trailing slashes) and "." go. */
  function KeptParts(pieces: seq<string>): (r: seq<string>)
    requires forall i :: 0 <= i < |pieces| ==> '/' !in pieces[i]
    ensures forall i :: 0 <= i < |r| ==> IsPart(r[i])
    ensures |r| <= |pieces|
    ensures (forall i :: 0 <= i < |pieces| ==> IsPart(pieces[i])) ==> r == pieces
    decreases |pieces|
  {
    if pieces == [] then []
    else
      var rest := KeptParts(pieces[1..]);
      if pieces[0] == "" || pieces[0] == "." then rest else [pieces[0]] + rest
  }

  /** The root of a path: exactly two leading slashes are kept, one or
      three and more become "/". */
  function RootOf(s: string): (r: string)
    ensures r == "" <==> s == [] || s[0] != '/'
    ensures r == "//" <==> |s| >= 2 && s[0] == '/' && s[1] == '/' && (|s| == 2 || s[2] != '/')
  {
    if |s| >= 2 && s[0] == '/' && s[1] == '/' && (|s| == 2 || s[2] != '/') then "//"
    else if s != [] && s[0] == '/' then "/"
    else ""
  }

  function ParsePath(s: string): (p: PosixPath)
    ensures forall i :: 0 <= i < |p.parts| ==> IsPart(p.parts[i])
  {
    PosixPath(RootOf(s), KeptParts(Split(s, '/')))
  }

  /** `str(path)`: "." for the empty relative path. */
  function ShowPath(p: PosixPath): string {
    if p.root == "" && p.parts == [] then "." else p.root + Join(p.parts, '/')
  }

  /** `path.parent`: the last component goes; a path without components is
      its own parent. */
  function Parent(p: PosixPath): (q: PosixPath)
    ensures q.root == p.root
    ensures p.parts == [] ==> q == p
    ensures p.parts != [] ==> q.parts == p.parts[..|p.parts| - 1]
  {
    if p.parts == [] then p else PosixPath(p.root, p.parts[..|p.parts| - 1])
  }

  /** `str(Path(profile_dir).parent.parent)`, the `HOME` of the child
      processes. */
  function HomeOf(profileDir: string): string {
    ShowPath(Parent(Parent(ParsePath(profileDir))))
  }

  /** A join opens with its first part. */
  lemma JoinHead(parts: seq<string>, sep: char)
    requires parts != []
    ensures Join(parts, sep)[..|parts[0]|] == parts[0]
  {
  }

  lemma SplitRooted(parts: seq<string>)
    requires parts != []
    requires forall i :: 0 <= i < |parts| ==> IsPart(parts[i])
    ensures Split("/" + Join(parts, '/'), '/') == [""] + parts
  {
    forall i | 0 <= i < |parts| ensures '/' !in parts[i] {
      assert IsPart(parts[i]);
    }
    SplitJoin(parts, '/');
    SplitAfterPiece("", Join(parts, '/'), '/');
    assert "" + ['/'] + Join(parts, '/') == "/" + Join(parts, '/');
  }

  lemma RootOfRooted(parts: seq<string>)
    requires parts != [] && IsPart(parts[0])
    ensures RootOf("/" + Join(parts, '/')) == "/"
  {
    var s := "/" + Join(parts, '/');
    JoinHead(parts, '/');
    assert s[1] == Join(parts, '/')[0] == parts[0][0];
  }

  /** An absolute path written with single slashes parses back into its
      components. */
  lemma ParseAbsolute(parts: seq<string>)
    requires parts != []
    requires forall i :: 0 <= i < |parts| ==> IsPart(parts[i])
    ensures ParsePath("/" + Join(parts, '/')) == PosixPath("/", parts)
  {
    var s := "/" + Join(parts, '/');
    assert Split(s, '/') == [""] + parts by {
      SplitRooted(parts);
    }
    assert RootOf(s) == "/" by {
      RootOfRooted(parts);
    }
    assert KeptParts([""] + parts) == parts by {
      assert ([""] + parts)[1..] == parts;
    }
  }

  /** The child's `HOME` is the profile directory without its last two
      components. */
  lemma HomeOfAbsolute(parts: seq<string>)
    requires |parts| >= 2
    requires forall i :: 0 <= i < |parts| ==> IsPart(parts[i])
    ensures HomeOf("/" + Join(parts, '/')) == "/" + Join(parts[..|parts| - 2], '/')
  {
    var q := PosixPath("/", parts[..|parts| - 2]);
    assert Parent(Parent(ParsePath("/" + Join(parts, '/')))) == q by {
      ParseAbsolute(parts);
      assert parts[..|parts| - 1][..|parts| - 2] == parts[..|parts| - 2];
    }
    assert ShowPath(q) == "/" + Join(parts[..|parts| - 2], '/');
  }

  lemma {:induction false} JoinSnoc(a: seq<string>, x: string, sep: char)
    requires a != []
    ensures Join(a + [x], sep) == Join(a, sep) + [sep] + x
    decreases |a|
  {
    if |a| == 1 {
      assert a + [x] == [a[0], x];
    } else {
      JoinSnoc(a[1..], x, sep);
      assert (a + [x])[1..] == a[1..] + [x];
    }
  }

  /** `os.path.expanduser("~/.config/joplin")` for the home directory `home`. */
  function DefaultProfileDir(home: string): string {
    RStripChar(home, '/') + "/.config/joplin"
  }

  /** With the default profile directory, the child's `HOME` is the user's
      home directory itself. */
  lemma DefaultProfileHome(homeParts: seq<string>)
    requires forall i :: 0 <= i < |homeParts| ==> IsPart(homeParts[i])
    ensures HomeOf(DefaultProfileDir("/" + Join(homeParts, '/'))) == "/" + Join(homeParts, '/')
  {
    var all := homeParts + [".config", "joplin"];
    if homeParts == [] {
      DefaultProfileOfRoot();
    } else {
      DefaultProfileJoined(homeParts);
    }
    ProfilePartsClean(homeParts);
    HomeOfAbsolute(all);
    assert all[..|all| - 2] == homeParts;
  }

  lemma ProfilePartsClean(homeParts: seq<string>)
    requires forall i :: 0 <= i < |homeParts| ==> IsPart(homeParts[i])
    ensures var all := homeParts + [".config", "joplin"];
            forall i :: 0 <= i < |all| ==> IsPart(all[i])
  {
    var all := homeParts + [".config", "joplin"];
    assert IsPart(".config") && IsPart("joplin");
    forall i | 0 <= i < |all| ensures IsPart(all[i]) {
      if i < |homeParts| {
        assert all[i] == homeParts[i];
      } else if i == |homeParts| {
        assert all[i] == ".config";
      } else {
        assert all[i] == "joplin";
      }
    }
  }

  lemma DefaultProfileOfRoot()
    ensures DefaultProfileDir("/" + Join([], '/')) == "/" + Join([] + [".config", "joplin"], '/')
  {
    assert RStripChar("/", '/') == "";
    assert Join([".config", "joplin"], '/') == ".config/joplin";
  }

  /** A home directory written without a trailing slash survives `rstrip`. */
  lemma RootedKeepsEnd(homeParts: seq<string>)
    requires homeParts != []
    requires forall i :: 0 <= i < |homeParts| ==> IsPart(homeParts[i])
    ensures RStripChar("/" + Join(homeParts, '/'), '/') == "/" + Join(homeParts, '/')
  {
    var home := "/" + Join(homeParts, '/');
    var last := homeParts[|homeParts| - 1];
    assert IsPart(last);
    LastOfJoin(homeParts, '/');
    assert home[|home| - 1] == last[|last| - 1];
    assert last[|last| - 1] in last;
  }

  lemma DefaultProfileJoined(homeParts: seq<string>)
    requires homeParts != []
    requires forall i :: 0 <= i < |homeParts| ==> IsPart(homeParts[i])
    ensures DefaultProfileDir("/" + Join(homeParts, '/')) == "/" + Join(homeParts + [".config", "joplin"], '/')
  {
    var j := Join(homeParts, '/');
    RootedKeepsEnd(homeParts);
    assert DefaultProfileDir("/" + j) == ("/" + j) + "/.config/joplin";
    JoinTwoMore(homeParts, ".config", "joplin", '/');
    ProfileSuffix();
    assert Join(homeParts + [".config", "joplin"], '/') == j + "/.config/joplin";
    Assoc("/", j, "/.config/joplin");
  }

  lemma JoinTwoMore(a: seq<string>, x: string, y: string, sep: char)
    requires a != []
    ensures Join(a + [x, y], sep) == Join(a, sep) + ([sep] + x + [sep] + y)
  {
    JoinSnoc(a, x, sep);
    JoinSnoc(a + [x], y, sep);
    assert a + [x] + [y] == a + [x, y];
  }

  lemma ProfileSuffix()
    ensures ['/'] + ".config" + ['/'] + "joplin" == "/.config/joplin"
  {
  }

  /** A join ends with the end of its last part. */
  lemma {:induction false} LastOfJoin(parts: seq<string>, sep: char)
    requires parts != [] && parts[|parts| - 1] != ""
    ensures var j := Join(parts, sep); var l := parts[|parts| - 1];
            j != "" && j[|j| - 1] == l[|l| - 1]
    decreases |parts|
  {
    if |parts| > 1 {
      LastOfJoin(parts[1..], sep);
    }
  }

  // ---------------------------------------------------------------------
  // The settings file (`_setup_profile_dir`)
  // ---------------------------------------------------------------------

  /** What `settings.json` holds: no file, a file that cannot be read or is
      not valid JSON, or a settings object. */
  datatype Stored = Absent | Unreadable | Settings(entries: map<string, string>)

  /** `d.get(key)`. */
  function Lookup(m: map<string, string>, key: string): Option<string> {
    if key in m then Some(m[key]) else None
  }

  const TokenSetting := "api.token"

  /** The file is rewritten unless it holds settings whose `api.token`
      equals the configured one (both may be missing). */
  predicate NeedsUpdate(stored: Stored, config: map<string, string>) {
    match stored
    case Absent => true
    case Unreadable => true
    case Settings(m) => Lookup(m, TokenSetting) != Lookup(config, TokenSetting)
  }

  /** The file after `_setup_profile_dir`: the configuration dictionary
      when an update is needed, the file as it was otherwise. */
  function SetupSettings(stored: Stored, config: map<string, string>): (r: Stored)
    ensures NeedsUpdate(stored, config) ==> r == Settings(config)
    ensures !NeedsUpdate(stored, config) ==> r == stored
    ensures r.Settings? && Lookup(r.entries, TokenSetting) == Lookup(config, TokenSetting)
  {
    if NeedsUpdate(stored, config) then Settings(config) else stored
  }

  /** After the setup the file carries the configured token, so a second
      setup leaves it alone; settings other than the token are not brought
      in line when the token already matches. */
  lemma SetupSettled(stored: Stored, config: map<string, string>)
    ensures !NeedsUpdate(SetupSettings(stored, config), config)
    ensures SetupSettings(SetupSettings(stored, config), config) == SetupSettings(stored, config)
    ensures stored.Settings? && Lookup(stored.entries, TokenSetting) == Lookup(config, TokenSetting) ==>
              SetupSettings(stored, config) == stored
  {
  }

  // ---------------------------------------------------------------------
  // The operating system
  // ---------------------------------------------------------------------

  /** A command line with the `HOME` and `JOPLIN_CONFIG_JSON` variables set
      for it. */
  datatype Command = Command(argv: seq<string>, home: string, configJson: map<string, string>)

  /** How `subprocess.run` of a command ends. */
  datatype CommandOutcome = Exited(code: int) | TimedOut | NoExecutable | Crashed

  /** How `subprocess.Popen` ends: a process handle, the executable is
      missing, or another exception. */
  datatype SpawnOutcome = Spawned(pid: nat) | NotInstalled | SpawnFailed

  /** What the port answers: no connection, or a connection on which
      `GET /ping` answers a status (`None` when the request raises). */
  datatype PortProbe = Closed | Open(ping: Option<int>)

  /** The probes of the readiness loop; `k` counts its rounds. `exited(k)`:
      the child has exited when round `k` polls it, `ping(k)`: the ping of
      round `k` answers 200, `cost(k)`: milliseconds that round takes
      besides its 2-second sleep. */
  datatype Probe = Probe(exited: nat -> bool, ping: nat -> bool, cost: nat -> nat)

  datatype Os = Os(
    alive: nat -> bool,
    port: PortProbe,
    run: Command -> CommandOutcome,
    spawn: Command -> SpawnOutcome,
    probe: Probe,
    graceful: nat -> bool)

  datatype Signal = Terminate(pid: nat) | Kill(pid: nat)

  /** `_is_port_listening`: the port accepts a connection and answers
      `/ping` with 200. */
  function PortListening(port: PortProbe): (r: bool)
    ensures r <==> port == Open(Some(200))
  {
    match port
    case Closed => false
    case Open(status) => status == Some(200)
  }

  /** The sleep between two readiness probes, in milliseconds. */
  const PollMillis := 2000

  /** Whether the readiness loop answers true when round `k` starts `t`
      milliseconds after the loop, with `budget` milliseconds in all;
      `watched` says whether there is a process handle to poll. */
  function ReadyWithin(p: Probe, watched: bool, budget: int, k: nat, t: nat): bool
    decreases budget - t
  {
    if t >= budget then false
    else if watched && p.exited(k) then false
    else if p.ping(k) then true
    else ReadyWithin(p, watched, budget, k + 1, t + p.cost(k) + PollMillis)
  }

  /** The loop answers true only after a ping answered 200, and that ping
      is among the first `budget / 2000 + 1` rounds. */
  lemma {:induction false} ReadyNeedsPing(p: Probe, watched: bool, budget: int, k: nat, t: nat)
    requires ReadyWithin(p, watched, budget, k, t)
    ensures t < budget
    ensures exists j :: k <= j < k + (budget - t) / PollMillis + 1 && p.ping(j)
    decreases budget - t
  {
    if !p.ping(k) {
      var t' := t + p.cost(k) + PollMillis;
      ReadyNeedsPing(p, watched, budget, k + 1, t');
      var j :| k + 1 <= j < k + 1 + (budget - t') / PollMillis + 1 && p.ping(j);
      assert (budget - t') / PollMillis <= (budget - t) / PollMillis - 1;
    }
  }

  /** A larger time budget never turns a ready server into a failed start. */
  lemma {:induction false} ReadyWithinMonotone(p: Probe, watched: bool, b1: int, b2: int, k: nat, t: nat)
    requires b1 <= b2 && ReadyWithin(p, watched, b1, k, t)
    ensures ReadyWithin(p, watched, b2, k, t)
    decreases b1 - t
  {
    if !p.ping(k) {
      ReadyWithinMonotone(p, watched, b1, b2, k + 1, t + p.cost(k) + PollMillis);
    }
  }

  /** A child that exits at round `j`, before any ping of the rounds from
      `k` on has answered 200, fails the wait: the loop stops at its first
      poll after the exit, or earlier when the budget is spent. */
  lemma {:induction false} ExitedBeforePingFails(p: Probe, budget: int, k: nat, j: nat, t: nat)
    requires k <= j && p.exited(j)
    requires forall i :: k <= i < j ==> !p.ping(i)
    ensures !ReadyWithin(p, true, budget, k, t)
    decreases j - k
  {
    if t < budget && !p.exited(k) {
      ExitedBeforePingFails(p, budget, k + 1, j, t + p.cost(k) + PollMillis);
    }
  }

  /** A child that has exited by the first poll is never waited for. */
  lemma ExitedChildFails(p: Probe, budget: int)
    requires p.exited(0)
    ensures !ReadyWithin(p, true, budget, 0, 0)
  {
    ExitedBeforePingFails(p, budget, 0, 0, 0);
  }

  /** What `stop` sends to a live handle: a terminate, then a kill when the
      process has not ended after the 10-second wait. */
  function StopSignals(os: Os, pid: nat): (s: seq<Signal>)
    ensures |s| >= 1 && s[0] == Terminate(pid)
    ensures |s| == 1 <==> os.graceful(pid)
    ensures |s| == 2 ==> s[1] == Kill(pid)
  {
    if os.graceful(pid) then [Terminate(pid)] else [Terminate(pid), Kill(pid)]
  }

  /** The supervisor of one Joplin profile. */
  class JoplinServerManager {
    /** The Joplin settings given to the process (`config_dict`). */
    const configDict: map<string, string>
    const port: int
    const profileDir: string
    /** The managed process handle, if any. */
    var process: Option<nat>
    /** `settings.json` of the profile directory. */
    var settings: Stored
    /** The commands run or spawned, oldest first. */
    ghost var commands: seq<Command>
    /** The signals sent to processes, oldest first. */
    ghost var signals: seq<Signal>

    /** `JoplinServerManager(config_dict, port, profile_dir)`: an empty
        `profileDir` selects the default under `home`; the settings file is
        brought in line with the configured token. */
    constructor (configDict: map<string, string>, port: int, profileDir: string, home: string, stored: Stored)
      ensures this.configDict == configDict && this.port == port
      ensures this.profileDir == (if profileDir == "" then DefaultProfileDir(home) else profileDir)
      ensures process.None?
      ensures settings == SetupSettings(stored, configDict)
      ensures commands == [] && signals == []
    {
      this.configDict := configDict;
      this.port := port;
      this.profileDir := if profileDir == "" then DefaultProfileDir(home) else profileDir;
      this.process := None;
      var needsUpdate := true;
      if stored.Settings? {
        var existingToken := Lookup(stored.entries, TokenSetting);
        var configuredToken := Lookup(configDict, TokenSetting);
        if existingToken == configuredToken {
          needsUpdate := false;
        }
      }
      this.settings := if needsUpdate then Settings(configDict) else stored;
      this.commands := [];
      this.signals := [];
    }

    /** `joplin sync --profile <dir>`. */
    function SyncCommand(): (c: Command)
      ensures c.argv == ["joplin", "sync", "--profile", profileDir]
      ensures c.home == HomeOf(profileDir) && c.configJson == configDict
    {
      Command(["joplin", "sync", "--profile", profileDir], HomeOf(profileDir), configDict)
    }

    /** `joplin server start --profile <dir>`. */
    function ServerCommand(): (c: Command)
      ensures c.argv == ["joplin", "server", "start", "--profile", profileDir]
      ensures c.home == HomeOf(profileDir) && c.configJson == configDict
    {
      Command(["joplin", "server", "start", "--profile", profileDir], HomeOf(profileDir), configDict)
    }

    /** `trigger_sync`: true exactly when the command exits with status 0;
        a non-zero status, the time-out, a missing executable and any other
        exception all answer false. */
    function TriggerSync(os: Os): (ok: bool)
      ensures ok <==> os.run(SyncCommand()) == Exited(0)
      ensures os.run(SyncCommand()) in {TimedOut, NoExecutable, Crashed} ==> !ok
    {
      match os.run(SyncCommand())
      case Exited(code) => code == 0
      case TimedOut => false
      case NoExecutable => false
      case Crashed => false
    }

    /** `is_running`. */
    function IsRunning(os: Os): (r: bool)
      reads this
      ensures r <==> process.Some? && os.alive(process.value)
    {
      if process.None? then false else os.alive(process.value)
    }

    /** `stop`: terminates the managed process, kills it when it does not end
        in time, and always forgets the handle. */
    method Stop(os: Os)
      modifies this
      ensures process.None?
      ensures old(process).None? ==> signals == old(signals)
      ensures old(process).Some? ==> signals == old(signals) + StopSignals(os, old(process).value)
      ensures commands == old(commands) && settings == old(settings)
      ensures !IsRunning(os)
    {
      if process.None? {
        return;
      }
      var pid := process.value;
      signals := signals + [Terminate(pid)];
      if !os.graceful(pid) {
        signals := signals + [Kill(pid)];
      }
      process := None;
    }

    /** `_wait_for_ready(timeout)`: polls until a ping answers 200, the
        child exits or `timeout` seconds have passed. */
    method WaitForReady(os: Os, timeout: int) returns (ok: bool)
      ensures ok == ReadyWithin(os.probe, process.Some?, timeout * 1000, 0, 0)
    {
      var budget := timeout * 1000;
      var k: nat := 0;
      var elapsed: nat := 0;
      while elapsed < budget
        invariant ReadyWithin(os.probe, process.Some?, budget, k, elapsed) ==
                  ReadyWithin(os.probe, process.Some?, budget, 0, 0)
        decreases budget - elapsed
      {
        if process.Some? && os.probe.exited(k) {
          return false;
        }
        if os.probe.ping(k) {
          return true;
        }
        elapsed := elapsed + os.probe.cost(k) + PollMillis;
        k := k + 1;
      }
      return false;
    }

    /** `start(timeout, sync_first)`. */
    method Start(os: Os, timeout: int, syncFirst: bool) returns (ok: bool)
      modifies this
      ensures settings == old(settings)
      ensures var shortcut := (old(process).Some? && os.alive(old(process).value)) || PortListening(os.port);
              shortcut ==> ok && process == old(process) && commands == old(commands) && signals == old(signals)
      ensures var shortcut := (old(process).Some? && os.alive(old(process).value)) || PortListening(os.port);
              !shortcut ==> commands == old(commands) + (if syncFirst then [SyncCommand()] else []) + [ServerCommand()]
      ensures var shortcut := (old(process).Some? && os.alive(old(process).value)) || PortListening(os.port);
              !shortcut ==>
                match os.spawn(ServerCommand())
                case NotInstalled => !ok && process == old(process) && signals == old(signals)
                case SpawnFailed =>
                  !ok && process.None? &&
                  signals == old(signals) + (if old(process).Some? then StopSignals(os, old(process).value) else [])
                case Spawned(pid) =>
                  ok == ReadyWithin(os.probe, true, timeout * 1000, 0, 0) &&
                  (ok ==> process == Some(pid) && signals == old(signals)) &&
                  (!ok ==> process.None? && signals == old(signals) + StopSignals(os, pid))
      ensures !ok ==> !IsRunning(os)
    {
      if process.Some? && os.alive(process.value) {
        return true;
      }
      if PortListening(os.port) {
        return true;
      }
      if syncFirst {
        commands := commands + [SyncCommand()];
        // A failed sync is only reported; the server starts anyway.
        var _ := TriggerSync(os);
      }
      commands := commands + [ServerCommand()];
      match os.spawn(ServerCommand())
      case NotInstalled =>
        return false;
      case SpawnFailed =>
        if process.Some? {
          Stop(os);
        }
        return false;
      case Spawned(pid) =>
        process := Some(pid);
        ok := WaitForReady(os, timeout);
        if !ok {
          Stop(os);
          return false;
        }
    }
  }
}
