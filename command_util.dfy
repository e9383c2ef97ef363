/**
 * The back end's process runner and environment set-up (src-tauri/src/command_util.rs).
 *
 * The operating system is a parameter throughout: the serial-port enumeration is a
 * sequence of port descriptions, the child process is whatever a `System` function
 * answers for an invocation (spawn outcome, the reads each pipe yields, the exit
 * status), the executable's location is an optional path, and the platform's byte
 * decoder is a `Decoder` function about which nothing is assumed.
 */
module CommandUtil {
  import opened Types

  // ---------------------------------------------------------------------------
  // Events sent to the front end (`app.emit`)
  // ---------------------------------------------------------------------------

  datatype Event = Event(name: string, payload: string)

  function LogEvent(payload: string): Event {
    Event("log_event", payload)
  }

  /** The progress notification: its payload is the fixed placeholder "0". */
  const ProgressEvent := Event("update_working_percentage", "0")

  function ProgressEvents(n: nat): seq<Event> {
    seq(n, _ => ProgressEvent)
  }

  /** The Tauri application handle, seen only through the events emitted on it. */
  class App {
    var events: seq<Event>

    constructor ()
      ensures events == []
    {
      events := [];
    }

    method Emit(e: Event)
      modifies this
      ensures events == old(events) + [e]
    {
      events := events + [e];
    }
  }

  /** One `Arc<Mutex<String>>` capture buffer; appends are serialised by the lock. */
  class SharedText {
    var text: string

    constructor ()
      ensures text == ""
    {
      text := "";
    }

    method Append(s: string)
      modifies this
      ensures text == old(text) + s
    {
      text := text + s;
    }
  }

  // ---------------------------------------------------------------------------
  // Serial ports (`update_port`)
  // ---------------------------------------------------------------------------

  /** `SerialPortType`; of a USB port's information only the product name is used. */
  datatype PortType = UsbPort(product: Option<string>) | PciPort | BluetoothPort | Unknown

  /** One entry of `available_ports()`. */
  datatype SerialPortInfo = SerialPortInfo(portName: string, portType: PortType)

  const NotFound := "Not found"

  predicate IsUsb(p: SerialPortInfo) {
    p.portType.UsbPort?
  }

  predicate HasProduct(p: SerialPortInfo) {
    p.portType.UsbPort? && p.portType.product.Some?
  }

  /** Index k holds the last USB port of the enumeration. */
  predicate LastUsbAt(ports: seq<SerialPortInfo>, k: int) {
    0 <= k < |ports| && IsUsb(ports[k]) && forall j :: k < j < |ports| ==> !IsUsb(ports[j])
  }

  /** Index k holds the last USB port that reports a product name. */
  predicate LastProductAt(ports: seq<SerialPortInfo>, k: int) {
    0 <= k < |ports| && HasProduct(ports[k]) && forall j :: k < j < |ports| ==> !HasProduct(ports[j])
  }

  predicate NoUsb(ports: seq<SerialPortInfo>) {
    forall j :: 0 <= j < |ports| ==> !IsUsb(ports[j])
  }

  predicate NoProduct(ports: seq<SerialPortInfo>) {
    forall j :: 0 <= j < |ports| ==> !HasProduct(ports[j])
  }

  /**
   * The values of `port` and `product` after the enumeration loop has visited `ports`:
   * a USB port overwrites `port` with its name, and `product` only when it reports one.
   */
  function ScanPorts(ports: seq<SerialPortInfo>): (string, string) {
    if ports == [] then ("", "")
    else
      var (port, product) := ScanPorts(ports[..|ports| - 1]);
      var p := ports[|ports| - 1];
      match p.portType
      case UsbPort(info) => (p.portName, if info.Some? then info.value else product)
      case _ => (port, product)
  }

  /** What `update_port` returns: the scan's pair, or ("Not found", "N/A") when no name was kept. */
  function UpdatePortResult(ports: seq<SerialPortInfo>): (string, string) {
    var (port, product) := ScanPorts(ports);
    if port == "" then (NotFound, "N/A") else (port, product)
  }

  method UpdatePort(ports: seq<SerialPortInfo>) returns (port: string, product: string)
    ensures (port, product) == UpdatePortResult(ports)
  {
    port, product := "", "";
    for i := 0 to |ports|
      invariant (port, product) == ScanPorts(ports[..i])
    {
      assert ports[..i + 1][..i] == ports[..i];
      match ports[i].portType
      case UsbPort(info) =>
        port := ports[i].portName;
        if info.Some? {
          product := info.value;
        }
      case _ =>
    }
    assert ports[..|ports|] == ports;
    if port == "" {
      port, product := NotFound, "N/A";
    }
  }

  lemma {:induction false} ScanPortsNoUsb(ports: seq<SerialPortInfo>)
    requires NoUsb(ports)
    ensures ScanPorts(ports) == ("", "")
  {
    if ports != [] {
      ScanPortsNoUsb(ports[..|ports| - 1]);
    }
  }

  lemma {:induction false} ScanPortsName(ports: seq<SerialPortInfo>, k: int)
    requires LastUsbAt(ports, k)
    ensures ScanPorts(ports).0 == ports[k].portName
  {
    var n := |ports|;
    if k < n - 1 {
      assert LastUsbAt(ports[..n - 1], k);
      ScanPortsName(ports[..n - 1], k);
    }
  }

  lemma {:induction false} ScanPortsProduct(ports: seq<SerialPortInfo>, k: int)
    requires LastProductAt(ports, k)
    ensures ScanPorts(ports).1 == ports[k].portType.product.value
  {
    var n := |ports|;
    if k < n - 1 {
      assert LastProductAt(ports[..n - 1], k);
      ScanPortsProduct(ports[..n - 1], k);
    }
  }

  lemma {:induction false} ScanPortsNoProduct(ports: seq<SerialPortInfo>)
    requires NoProduct(ports)
    ensures ScanPorts(ports).1 == ""
  {
    if ports != [] {
      ScanPortsNoProduct(ports[..|ports| - 1]);
    }
  }

  /** Without any USB port the result is ("Not found", "N/A"). */
  lemma UpdatePortNoUsb(ports: seq<SerialPortInfo>)
    requires NoUsb(ports)
    ensures UpdatePortResult(ports) == (NotFound, "N/A")
  {
    ScanPortsNoUsb(ports);
  }

  /**
   * The last USB port in enumeration order gives the name, whatever non-USB ports
   * follow it; if no USB port reports a product, the product is "".
   */
  lemma UpdatePortLastUsbWins(ports: seq<SerialPortInfo>, k: int)
    requires LastUsbAt(ports, k) && ports[k].portName != ""
    ensures UpdatePortResult(ports).0 == ports[k].portName
    ensures NoProduct(ports) ==> UpdatePortResult(ports).1 == ""
  {
    ScanPortsName(ports, k);
    if NoProduct(ports) {
      ScanPortsNoProduct(ports);
    }
  }

  /**
   * The product is that of the last USB port that reported one, which may be an
   * earlier port than the one whose name is returned.
   */
  lemma UpdatePortLastProduct(ports: seq<SerialPortInfo>, k: int, j: int)
    requires LastUsbAt(ports, k) && ports[k].portName != ""
    requires LastProductAt(ports, j)
    ensures j <= k
    ensures UpdatePortResult(ports) == (ports[k].portName, ports[j].portType.product.value)
  {
    ScanPortsName(ports, k);
    ScanPortsProduct(ports, j);
  }

  /** A last USB port with an empty name hides every earlier USB port. */
  lemma UpdatePortUnnamedLastUsb(ports: seq<SerialPortInfo>, k: int)
    requires LastUsbAt(ports, k) && ports[k].portName == ""
    ensures UpdatePortResult(ports) == (NotFound, "N/A")
  {
    ScanPortsName(ports, k);
  }

  // ---------------------------------------------------------------------------
  // Configuration (`Config::setup_env`)
  // ---------------------------------------------------------------------------

  /** A path as its sequence of components; `PathBuf::new()` has none. */
  datatype Path = Path(components: seq<string>)

  const EmptyPath := Path([])
  const CurrentDirPath := Path(["."])

  /** `PathBuf::join` with a single relative component. */
  function Join(p: Path, name: string): (q: Path)
    ensures Parent(q) == Some(p)
  {
    Path(p.components + [name])
  }

  /** `Path::parent`: `None` for a path without components. */
  function Parent(p: Path): Option<Path> {
    if p.components == [] then None else Some(Path(p.components[..|p.components| - 1]))
  }

  /** `path.to_str().unwrap_or(fallback)`; `toStr` fails on a path that is not valid Unicode. */
  function ToStrOr(toStr: Path -> Option<string>, p: Path, fallback: string): string {
    match toStr(p)
    case Some(s) => s
    case None => fallback
  }

  datatype LogLevel = Info | Debug

  datatype Config = Config(
    fhLoaderPath: string,
    saharaServerPath: string,
    fhLoaderPathLinux: string,
    saharaServerPathLinux: string,
    portPath: string,
    fhPortConnStr: string,
    saharaPortConnStr: string,
    fhPortConnStrLinux: string,
    saharaPortConnStrLinux: string,
    currentDir: Path,
    isConnect: bool,
    logLevel: LogLevel)

  const DefaultConfig := Config("", "", "", "", "", "", "", "", "", EmptyPath, false, Info)

  /** The raw string `\\.\` that opens a Windows device name. */
  const DevicePrefix := "\\\\.\\"
  const PortFlag := "--port="

  /** The directory the tools are looked up in: the executable's parent, or ".". */
  function ExeDir(exe: Path): Path {
    match Parent(exe)
    case Some(dir) => dir
    case None => CurrentDirPath
  }

  function ToolPath(toStr: Path -> Option<string>, exe: Path, tool: string): string {
    ToStrOr(toStr, Join(Join(ExeDir(exe), "tools"), tool), tool)
  }

  method SetupEnv(debug: bool, ports: seq<SerialPortInfo>, currentExe: Option<Path>,
                  toStr: Path -> Option<string>) returns (config: Config)
    ensures UpdatePortResult(ports).0 == NotFound || currentExe.None? ==> config == DefaultConfig
    ensures config.isConnect <==> UpdatePortResult(ports).0 != NotFound && currentExe.Some?
    ensures config.isConnect ==>
      var port := UpdatePortResult(ports).0;
      && config.portPath == port
      && config.saharaPortConnStr == DevicePrefix + port
      && config.fhPortConnStr == PortFlag + config.saharaPortConnStr
      && config.saharaPortConnStrLinux == port
      && config.fhPortConnStrLinux == PortFlag + config.saharaPortConnStrLinux
      && (config.logLevel == Debug <==> debug)
    ensures config.isConnect ==>
      var exe := currentExe.value;
      && config.currentDir == ExeDir(exe)
      && config.fhLoaderPath == ToolPath(toStr, exe, "fh_loader.exe")
      && config.saharaServerPath == ToolPath(toStr, exe, "QSaharaServer.exe")
      && config.fhLoaderPathLinux == ToolPath(toStr, exe, "fh_loader")
      && config.saharaServerPathLinux == ToolPath(toStr, exe, "QSaharaServer")
  {
    config := DefaultConfig;
    var portPath, _ := UpdatePort(ports);
    if portPath == NotFound {
      return;
    }
    var portStr := DevicePrefix + portPath;
    var portConnStr := PortFlag + DevicePrefix + portPath;
    var portConnStrLinux := PortFlag + portPath;
    if currentExe.None? {
      return;
    }
    var parentDir := ExeDir(currentExe.value);
    var toolsDir := Join(parentDir, "tools");
    var logLevel := if debug then Debug else Info;

    config := config.(currentDir := parentDir);
    config := config.(portPath := portPath);
    config := config.(fhPortConnStr := portConnStr);
    config := config.(saharaPortConnStr := portStr);
    config := config.(fhPortConnStrLinux := portConnStrLinux);
    config := config.(saharaPortConnStrLinux := portPath);
    config := config.(fhLoaderPath := ToStrOr(toStr, Join(toolsDir, "fh_loader.exe"), "fh_loader.exe"));
    config := config.(saharaServerPath := ToStrOr(toStr, Join(toolsDir, "QSaharaServer.exe"), "QSaharaServer.exe"));
    config := config.(fhLoaderPathLinux := ToStrOr(toStr, Join(toolsDir, "fh_loader"), "fh_loader"));
    config := config.(saharaServerPathLinux := ToStrOr(toStr, Join(toolsDir, "QSaharaServer"), "QSaharaServer"));
    config := config.(isConnect := |config.fhPortConnStr| != 0);
    config := config.(logLevel := logLevel);
  }

  // ---------------------------------------------------------------------------
  // Draining one output stream
  // ---------------------------------------------------------------------------

  /** The platform's `decode_bytes`: total, and otherwise unknown. */
  type Decoder = seq<byte> -> string

  /** The outcome of one `read_buf`: the bytes it read (none at end of stream), or an error. */
  datatype Read = Data(bytes: seq<byte>) | ReadFailed

  /** A read that ends the `while let Ok(n)` loop: an error or a zero-length read. */
  predicate EndsDrain(r: Read) {
    r.ReadFailed? || |r.bytes| == 0
  }

  /** The chunks a drain loop processes: the non-empty reads before the first read that ends it. */
  function Chunks(results: seq<Read>): seq<seq<byte>> {
    if results == [] || EndsDrain(results[0]) then []
    else [results[0].bytes] + Chunks(results[1..])
  }

  /** The text a drain appends for `chunks`: each chunk decoded on its own, then "\n". */
  function DrainText(decode: Decoder, chunks: seq<seq<byte>>): string {
    if chunks == [] then ""
    else decode(chunks[0]) + "\n" + DrainText(decode, chunks[1..])
  }

  /** The chunks are exactly the leading non-empty reads, and the read after them ends the loop. */
  lemma {:induction false} ChunksAreLeadingReads(results: seq<Read>)
    ensures |Chunks(results)| <= |results|
    ensures forall j :: 0 <= j < |Chunks(results)| ==>
              results[j] == Data(Chunks(results)[j]) && |Chunks(results)[j]| > 0
    ensures |Chunks(results)| < |results| ==> EndsDrain(results[|Chunks(results)|])
  {
    if results != [] && !EndsDrain(results[0]) {
      ChunksAreLeadingReads(results[1..]);
    }
  }

  /** Appending chunks appends their text: the buffer grows in read order. */
  lemma {:induction false} DrainTextAppend(decode: Decoder, a: seq<seq<byte>>, b: seq<seq<byte>>)
    ensures DrainText(decode, a + b) == DrainText(decode, a) + DrainText(decode, b)
  {
    if a != [] {
      assert (a + b)[1..] == a[1..] + b;
      DrainTextAppend(decode, a[1..], b);
    } else {
      assert a + b == b;
    }
  }

  /** The captured text is empty exactly when no chunk was read, even if chunks decode to "". */
  lemma DrainTextEmpty(decode: Decoder, chunks: seq<seq<byte>>)
    ensures DrainText(decode, chunks) == "" <==> chunks == []
  {
  }

  /**
   * Conversely, leading non-empty reads followed by a read that ends the loop (or by
   * nothing) are exactly the chunks.
   */
  lemma {:induction false} ChunksOfLeadingReads(results: seq<Read>, chunks: seq<seq<byte>>)
    requires |chunks| <= |results|
    requires forall j :: 0 <= j < |chunks| ==> !EndsDrain(results[j]) && results[j].bytes == chunks[j]
    requires |chunks| < |results| ==> EndsDrain(results[|chunks|])
    ensures Chunks(results) == chunks
  {
    if chunks != [] {
      ChunksOfLeadingReads(results[1..], chunks[1..]);
    }
  }

  /** One more chunk appends its decoded text and "\n" at the end of the buffer. */
  lemma DrainTextSnoc(decode: Decoder, done: seq<seq<byte>>, chunk: seq<byte>)
    ensures DrainText(decode, done + [chunk]) == DrainText(decode, done) + decode(chunk) + "\n"
  {
    DrainTextAppend(decode, done, [chunk]);
    assert DrainText(decode, [chunk]) == decode(chunk) + "\n" + DrainText(decode, []);
  }

  /** The progress events a drain has emitted after `n` chunks. */
  function DrainEvents(progress: bool, n: nat): seq<Event> {
    if progress then ProgressEvents(n) else []
  }

  /** One more stdout chunk adds one progress event at the end; a stderr chunk adds none. */
  lemma DrainEventsSnoc(progress: bool, n: nat)
    ensures progress ==> DrainEvents(progress, n + 1) == DrainEvents(progress, n) + [ProgressEvent]
    ensures !progress ==> DrainEvents(progress, n + 1) == DrainEvents(progress, n) == []
  {
  }

  /**
   * One drain task: reads into a chunk buffer, stops at a zero-length read or a read
   * error, and otherwise appends the decoded chunk and "\n" to `sink`, emits one
   * progress event when `progress` is set (the stdout task), and clears the buffer.
   */
  method Drain(results: seq<Read>, decode: Decoder, sink: SharedText, app: App, progress: bool)
    modifies sink, app
    ensures sink.text == old(sink.text) + DrainText(decode, Chunks(results))
    ensures app.events == old(app.events) + DrainEvents(progress, |Chunks(results)|)
  {
    ghost var text0, events0 := sink.text, app.events;
    var buffer: seq<byte> := [];
    var i := 0;
    ghost var done: seq<seq<byte>> := [];
    while i < |results|
      invariant 0 <= i <= |results| && |done| == i
      invariant forall j :: 0 <= j < i ==> !EndsDrain(results[j]) && results[j].bytes == done[j]
      invariant buffer == []
      invariant sink.text == text0 + DrainText(decode, done)
      invariant app.events == events0 + DrainEvents(progress, i)
    {
      if results[i].ReadFailed? {
        break;
      }
      buffer := buffer + results[i].bytes;
      var n := |results[i].bytes|;
      if n == 0 {
        break;
      }
      assert buffer == results[i].bytes;
      var decoded := decode(buffer);
      sink.Append(decoded);
      sink.Append("\n");
      if progress {
        app.Emit(ProgressEvent);
      }
      buffer := [];
      DrainTextSnoc(decode, done, results[i].bytes);
      DrainEventsSnoc(progress, i);
      done := done + [results[i].bytes];
      i := i + 1;
    }
    ChunksOfLeadingReads(results, done);
  }

  // ---------------------------------------------------------------------------
  // Running a command (`exec_cmd_with_progress`)
  // ---------------------------------------------------------------------------

  /** What is handed to `Command`: the executable, its arguments and the working directory. */
  datatype Invocation = Invocation(program: string, args: seq<string>, workDir: Path)

  /** The result of `child.wait()`: an error, or the exit status's `success()`. */
  datatype Exit = WaitFailed(reason: string) | Exited(success: bool)

  /** A spawned child: each pipe handle if it could be taken, with the reads it yields. */
  datatype Child = Child(stdout: Option<seq<Read>>, stderr: Option<seq<Read>>, exit: Exit)

  datatype Spawn = SpawnFailed(reason: string) | Spawned(child: Child)

  /** The operating system's answer to spawning an invocation. */
  type System = Invocation -> Spawn

  /** A child whose two pipes were both captured. */
  datatype Capture = Capture(stdoutReads: seq<Read>, stderrReads: seq<Read>, exit: Exit)

  const EmptyCommandError := "[Error] cmd is empty"
  const StdoutCaptureError := "[Error] Failed to capture stdout"
  const StderrCaptureError := "[Error] Failed to capture stderr"

  function SpawnError(reason: string): string {
    "Failed to spawn command: " + reason
  }

  function WaitError(reason: string): string {
    "Failed to wait for command: " + reason
  }

  /** Validation of the command and choice of the working directory, before any spawn. */
  function Prepare(cmd: seq<string>, currentDir: Option<Path>): (r: Result<Invocation, string>)
    ensures r.Err? <==> cmd == []
    ensures r.Err? ==> r.error == EmptyCommandError
    ensures r.Ok? ==> [r.value.program] + r.value.args == cmd
    ensures r.Ok? ==> r.value.workDir == if currentDir.Some? then currentDir.value else CurrentDirPath
  {
    if |cmd| == 0 then Err(EmptyCommandError)
    else
      var workDir := match currentDir
        case Some(dir) => dir
        case None => CurrentDirPath;
      Ok(Invocation(cmd[0], cmd[1..], workDir))
  }

  /** Validation, spawn and capture of both pipes. */
  function Launch(cmd: seq<string>, currentDir: Option<Path>, system: System): Result<Capture, string> {
    match Prepare(cmd, currentDir)
    case Err(e) => Err(e)
    case Ok(invocation) =>
      match system(invocation)
      case SpawnFailed(reason) => Err(SpawnError(reason))
      case Spawned(child) =>
        if child.stdout.None? then Err(StdoutCaptureError)
        else if child.stderr.None? then Err(StderrCaptureError)
        else Ok(Capture(child.stdout.value, child.stderr.value, child.exit))
  }

  /** The result composed from the exit status and the two final buffers. */
  function Outcome(success: bool, finalStdout: string, finalStderr: string): (r: Result<string, string>)
    ensures r.Ok? <==> success
    ensures r.Ok? ==> r.value == finalStdout
    ensures r.Err? && finalStderr != "" ==> r.error == finalStderr
    ensures r.Err? && finalStderr == "" ==> r.error == finalStdout
  {
    if success then Ok(finalStdout)
    else if finalStderr == "" then Err(finalStdout)
    else Err(finalStderr)
  }

  /** The value `exec_cmd_with_progress` returns. */
  function ExecResult(cmd: seq<string>, currentDir: Option<Path>, system: System, decode: Decoder): Result<string, string> {
    match Launch(cmd, currentDir, system)
    case Err(e) => Err(e)
    case Ok(c) =>
      match c.exit
      case WaitFailed(reason) => Err(WaitError(reason))
      case Exited(success) =>
        Outcome(success, DrainText(decode, Chunks(c.stdoutReads)), DrainText(decode, Chunks(c.stderrReads)))
  }

  /** The number of progress events `exec_cmd_with_progress` emits. */
  function ProgressCount(cmd: seq<string>, currentDir: Option<Path>, system: System): nat {
    match Launch(cmd, currentDir, system)
    case Err(_) => 0
    case Ok(c) => |Chunks(c.stdoutReads)|
  }

  method ExecCmdWithProgress(app: App, cmd: seq<string>, currentDir: Option<Path>,
                             system: System, decode: Decoder) returns (r: Result<string, string>)
    modifies app
    ensures r == ExecResult(cmd, currentDir, system, decode)
    ensures app.events == old(app.events) + ProgressEvents(ProgressCount(cmd, currentDir, system))
  {
    var prepared := Prepare(cmd, currentDir);
    if prepared.Err? {
      return Err(prepared.error);
    }
    var spawn := system(prepared.value);
    if spawn.SpawnFailed? {
      return Err(SpawnError(spawn.reason));
    }
    var child := spawn.child;
    if child.stdout.None? {
      return Err(StdoutCaptureError);
    }
    if child.stderr.None? {
      return Err(StderrCaptureError);
    }
    var stdoutStr := new SharedText();
    var stderrStr := new SharedText();
    Drain(child.stdout.value, decode, stdoutStr, app, true);
    Drain(child.stderr.value, decode, stderrStr, app, false);
    if child.exit.WaitFailed? {
      return Err(WaitError(child.exit.reason));
    }
    var finalStdout := stdoutStr.text;
    var finalStderr := stderrStr.text;
    assert finalStdout == DrainText(decode, Chunks(child.stdout.value));
    assert finalStderr == DrainText(decode, Chunks(child.stderr.value));
    r := Outcome(child.exit.success, finalStdout, finalStderr);
  }

  /** An empty command fails with the fixed message whatever the system would do: nothing is spawned. */
  lemma ExecEmptyCommand(currentDir: Option<Path>, system: System, decode: Decoder)
    ensures ExecResult([], currentDir, system, decode) == Err(EmptyCommandError)
    ensures ProgressCount([], currentDir, system) == 0
  {
  }

  /**
   * A non-empty command spawns `cmd[0]` with `cmd[1..]` in the given directory, or ".";
   * a spawn failure is reported with its reason, and both pipes must be captured.
   */
  lemma ExecSpawnsCommand(cmd: seq<string>, currentDir: Option<Path>, system: System, decode: Decoder)
    requires cmd != []
    ensures var spawn := system(Invocation(cmd[0], cmd[1..],
                           if currentDir.Some? then currentDir.value else CurrentDirPath));
      && (spawn.SpawnFailed? ==> ExecResult(cmd, currentDir, system, decode) == Err(SpawnError(spawn.reason)))
      && (spawn.Spawned? && spawn.child.stdout.None? ==>
            ExecResult(cmd, currentDir, system, decode) == Err(StdoutCaptureError))
      && (spawn.Spawned? && spawn.child.stdout.Some? && spawn.child.stderr.None? ==>
            ExecResult(cmd, currentDir, system, decode) == Err(StderrCaptureError))
      && (spawn.Spawned? && spawn.child.stdout.Some? && spawn.child.stderr.Some? ==>
            Launch(cmd, currentDir, system)
              == Ok(Capture(spawn.child.stdout.value, spawn.child.stderr.value, spawn.child.exit)))
  {
  }

  /** On success the caller gets every stdout chunk, decoded and newline-terminated, in read order. */
  lemma ExecSuccess(cmd: seq<string>, currentDir: Option<Path>, system: System, decode: Decoder)
    requires Launch(cmd, currentDir, system).Ok?
    requires Launch(cmd, currentDir, system).value.exit == Exited(true)
    ensures ExecResult(cmd, currentDir, system, decode)
              == Ok(DrainText(decode, Chunks(Launch(cmd, currentDir, system).value.stdoutReads)))
  {
  }

  /**
   * On a failing exit the error carries the stderr text whenever stderr yielded any
   * chunk (even one that decodes to ""), and the stdout text otherwise.
   */
  lemma ExecFailureText(cmd: seq<string>, currentDir: Option<Path>, system: System, decode: Decoder)
    requires Launch(cmd, currentDir, system).Ok?
    requires Launch(cmd, currentDir, system).value.exit == Exited(false)
    ensures var c := Launch(cmd, currentDir, system).value;
      ExecResult(cmd, currentDir, system, decode)
        == if Chunks(c.stderrReads) != [] then Err(DrainText(decode, Chunks(c.stderrReads)))
           else Err(DrainText(decode, Chunks(c.stdoutReads)))
  {
  }

  // ---------------------------------------------------------------------------
  // The labelled wrapper (`exec_cmd_with_msg`)
  // ---------------------------------------------------------------------------

  /** The command line as logged in debug mode: every element preceded by one space. */
  function CmdLine(cmd: seq<string>): string {
    if cmd == [] then "" else CmdLine(cmd[..|cmd| - 1]) + " " + cmd[|cmd| - 1]
  }

  /** Read from the front, the logged line is " " + cmd[0], then the rest of the line. */
  lemma {:induction false} CmdLineFront(cmd: seq<string>)
    requires cmd != []
    ensures CmdLine(cmd) == " " + cmd[0] + CmdLine(cmd[1..])
  {
    var n := |cmd|;
    if n > 1 {
      CmdLineFront(cmd[..n - 1]);
      assert cmd[..n - 1][1..] == cmd[1..][..n - 2];
    }
  }

  /** Logging a command is logging its parts one after the other. */
  lemma {:induction false} CmdLineAppend(a: seq<string>, b: seq<string>)
    ensures CmdLine(a + b) == CmdLine(a) + CmdLine(b)
  {
    if b != [] {
      var n := |b|;
      assert (a + b)[..|a + b| - 1] == a + b[..n - 1];
      CmdLineAppend(a, b[..n - 1]);
    } else {
      assert a + b == a;
    }
  }

  /** The command `a b c` is logged as " a b c". */
  lemma CmdLineExample()
    ensures CmdLine(["a", "b", "c"]) == " a b c"
  {
    CmdLineFront(["a", "b", "c"]);
    CmdLineFront(["b", "c"]);
    CmdLineFront(["c"]);
    assert ["a", "b", "c"][1..] == ["b", "c"] && ["b", "c"][1..] == ["c"];
  }

  method BuildCmdLine(cmd: seq<string>) returns (cmdStr: string)
    ensures cmdStr == CmdLine(cmd)
  {
    cmdStr := "";
    for i := 0 to |cmd|
      invariant cmdStr == CmdLine(cmd[..i])
    {
      assert cmd[..i + 1][..i] == cmd[..i];
      cmdStr := cmdStr + " " + cmd[i];
    }
    assert cmd[..|cmd|] == cmd;
  }

  function StatusMessage(msg: string, r: Result<string, string>): string {
    msg + if r.Ok? then "...OK" else "...Error"
  }

  method ExecCmdWithMsg(msg: string, app: App, config: Config, cmd: seq<string>,
                        system: System, decode: Decoder) returns (r: Result<string, string>)
    modifies app
    ensures r == ExecResult(cmd, None, system, decode)
    ensures app.events == old(app.events)
      + (if config.logLevel == Debug then [LogEvent(CmdLine(cmd))] else [])
      + ProgressEvents(ProgressCount(cmd, None, system))
      + [LogEvent(StatusMessage(msg, r))]
  {
    if config.logLevel == Debug {
      var cmdStr := BuildCmdLine(cmd);
      app.Emit(LogEvent(cmdStr));
    }
    var result := ExecCmdWithProgress(app, cmd, None, system, decode);
    match result
    case Ok(value) =>
      app.Emit(LogEvent(msg + "...OK"));
      r := Ok(value);
    case Err(error) =>
      app.Emit(LogEvent(msg + "...Error"));
      r := Err(error);
  }
}
