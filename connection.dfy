/**
 * The connection manager of `main`: find the device among the serial ports,
 * open it, stream one frame per cycle, and go back to scanning when a write
 * fails for any reason other than a timeout.  The serial library, the
 * sleeps and the OS readings are replaced by a trace of events that carry
 * what the library calls returned.
 */
module Connection {
  import opened Wrappers
  import opened Ints
  import opened Snapshot
  import opened Frame

  /** USB identifiers of the device (vendor 0483, product 5740). */
  const FLIPPER_VID: u16 := 0x0483
  const FLIPPER_PID: u16 := 0x5740

  /** Link configuration used by every open. */
  const BAUD_RATE: nat := 115200
  const TIMEOUT_MS: nat := 1000

  datatype PortType = UsbPort(vid: u16, pid: u16) | PciPort | BluetoothPort | UnknownPort

  /** One entry of the serial-port enumeration. */
  datatype PortInfo = PortInfo(name: string, portType: PortType)

  predicate IsFlipper(p: PortInfo) {
    p.portType.UsbPort? && p.portType.vid == FLIPPER_VID && p.portType.pid == FLIPPER_PID
  }

  /** The name of the first enumerated port that is the device, if any. */
  function FirstFlipper(ports: seq<PortInfo>): (name: Option<string>)
    ensures name.Some? ==> exists i :: 0 <= i < |ports| && IsFlipper(ports[i]) && ports[i].name == name.value
  {
    if ports == [] then None
    else if IsFlipper(ports[0]) then Some(ports[0].name)
    else FirstFlipper(ports[1..])
  }

  /** A matching port preceded only by non-matching ones is the one selected. */
  lemma {:induction false} FirstFlipperAt(ports: seq<PortInfo>, i: nat)
    requires i < |ports| && IsFlipper(ports[i])
    requires forall j :: 0 <= j < i ==> !IsFlipper(ports[j])
    ensures FirstFlipper(ports) == Some(ports[i].name)
  {
    if i > 0 {
      FirstFlipperAt(ports[1..], i - 1);
    }
  }

  /** Nothing is selected exactly when no port matches. */
  lemma {:induction false} FirstFlipperNone(ports: seq<PortInfo>)
    ensures FirstFlipper(ports).None? <==> forall i :: 0 <= i < |ports| ==> !IsFlipper(ports[i])
  {
    if ports != [] {
      FirstFlipperNone(ports[1..]);
      assert forall i :: 1 <= i < |ports| ==> ports[i] == ports[1..][i - 1];
    }
  }

  /**
   * The scan of `main`: walk the enumeration and stop at the first USB port
   * with the device's vendor and product identifiers.
   */
  method FindFlipperPort(ports: seq<PortInfo>) returns (name: Option<string>)
    ensures name == FirstFlipper(ports)
  {
    name := None;
    for i := 0 to |ports|
      invariant name.None?
      invariant forall j :: 0 <= j < i ==> !IsFlipper(ports[j])
    {
      if ports[i].portType.UsbPort? {
        var info := ports[i].portType;
        if info.vid == FLIPPER_VID && info.pid == FLIPPER_PID {
          name := Some(ports[i].name);
          FirstFlipperAt(ports, i);
          break;
        }
      }
    }
    if name.None? {
      FirstFlipperNone(ports);
    }
  }

  /** An open, configured link. */
  datatype SerialLink = SerialLink(port: string, baudRate: nat, timeoutMs: nat)

  datatype State = Scanning | Connecting(port: string) | Streaming(link: SerialLink)

  /** The `std::io::ErrorKind`s a write can fail with that the model distinguishes. */
  datatype IoErrorKind = TimedOut | BrokenPipe | NotConnected | PermissionDenied | OtherError

  /** What opening the port returned, and whether asserting DTR and RTS succeeded. */
  datatype OpenResult = Opened(dtrOk: bool, rtsOk: bool) | OpenFailed

  datatype WriteResult = Written | WriteFailed(kind: IoErrorKind)

  /**
   * What the outside world answered in one step: the port enumeration, the
   * outcome of an open, or the readings of a cycle and the outcome of
   * writing its frame.
   */
  datatype Event =
    | PortsListed(ports: seq<PortInfo>)
    | OpenAttempted(openResult: OpenResult)
    | FrameWritten(readings: Readings, writeResult: WriteResult)

  /** The events that can happen in each state. */
  predicate Accepts(s: State, e: Event) {
    match s
    case Scanning => e.PortsListed?
    case Connecting(_) => e.OpenAttempted?
    case Streaming(_) => e.FrameWritten? && ValidReadings(e.readings)
  }

  /** A write that stays in `Streaming`: success, or a timeout (the frame is dropped). */
  predicate KeepsLink(w: WriteResult) {
    w.Written? || w.kind == TimedOut
  }

  function Next(s: State, e: Event): (s': State)
    requires Accepts(s, e)
    ensures s'.Connecting? ==> s.Scanning?
    ensures s'.Streaming? ==> !s.Scanning?
  {
    match s
    case Scanning =>
      (match FirstFlipper(e.ports)
       case None => Scanning
       case Some(port) => Connecting(port))
    case Connecting(port) =>
      if e.openResult.Opened? then Streaming(SerialLink(port, BAUD_RATE, TIMEOUT_MS)) else Scanning
    case Streaming(link) =>
      if KeepsLink(e.writeResult) then Streaming(link) else Scanning
  }

  /** The frames a step delivers to the device: the encoded snapshot of a successful write. */
  function Delivered(s: State, e: Event): (frames: seq<seq<u8>>)
    requires Accepts(s, e)
    ensures |frames| == 1 <==> s.Streaming? && e.writeResult.Written?
    ensures |frames| <= 1
  {
    if s.Streaming? && e.writeResult.Written? then [Encode(GetSystemInfo(e.readings))] else []
  }

  /** The trace can be driven from `s`: each event fits the state it arrives in. */
  predicate Admissible(s: State, trace: seq<Event>)
    decreases |trace|
  {
    trace == [] || (Accepts(s, trace[0]) && Admissible(Next(s, trace[0]), trace[1..]))
  }

  function Final(s: State, trace: seq<Event>): (last: State)
    requires Admissible(s, trace)
    decreases |trace|
  {
    if trace == [] then s else Final(Next(s, trace[0]), trace[1..])
  }

  /** Every state visited, starting with `s`. */
  function Visited(s: State, trace: seq<Event>): (r: seq<State>)
    requires Admissible(s, trace)
    ensures |r| == |trace| + 1 && r[0] == s
    decreases |trace|
  {
    if trace == [] then [s] else [s] + Visited(Next(s, trace[0]), trace[1..])
  }

  function Log(s: State, trace: seq<Event>): (frames: seq<seq<u8>>)
    requires Admissible(s, trace)
    decreases |trace|
  {
    if trace == [] then [] else Delivered(s, trace[0]) + Log(Next(s, trace[0]), trace[1..])
  }

  /** The number of successful writes in a trace. */
  function CountWritten(trace: seq<Event>): (n: nat) {
    if trace == [] then 0
    else (if trace[0].FrameWritten? && trace[0].writeResult.Written? then 1 else 0)
         + CountWritten(trace[1..])
  }

  /** Scanning moves on exactly when some port matches, and to the first match. */
  lemma ScanSelectsFirstMatch(ports: seq<PortInfo>)
    ensures Next(Scanning, PortsListed(ports)) == Scanning <==>
              forall i :: 0 <= i < |ports| ==> !IsFlipper(ports[i])
    ensures forall i :: 0 <= i < |ports| && IsFlipper(ports[i])
                          && (forall j :: 0 <= j < i ==> !IsFlipper(ports[j])) ==>
                          Next(Scanning, PortsListed(ports)) == Connecting(ports[i].name)
  {
    FirstFlipperNone(ports);
    forall i | 0 <= i < |ports| && IsFlipper(ports[i]) && (forall j :: 0 <= j < i ==> !IsFlipper(ports[j])) {
      FirstFlipperAt(ports, i);
    }
  }

  /**
   * A successful open streams on the chosen port at 115200 baud with a
   * 1000 ms timeout, and what happened to DTR and RTS makes no difference;
   * a failed open rescans.
   */
  lemma OpenOutcome(port: string, dtr1: bool, rts1: bool, dtr2: bool, rts2: bool)
    ensures Next(Connecting(port), OpenAttempted(Opened(dtr1, rts1)))
            == Next(Connecting(port), OpenAttempted(Opened(dtr2, rts2)))
    ensures var s := Next(Connecting(port), OpenAttempted(Opened(dtr1, rts1)));
            s.Streaming? && s.link.port == port && s.link.baudRate == 115200 && s.link.timeoutMs == 1000
    ensures Next(Connecting(port), OpenAttempted(OpenFailed)) == Scanning
  {
  }

  /** Success and timeout keep the link; every other write error rescans. */
  lemma WriteOutcome(link: SerialLink, r: Readings, w: WriteResult)
    requires ValidReadings(r)
    ensures Next(Streaming(link), FrameWritten(r, w)) == Streaming(link) <==>
              w == Written || w == WriteFailed(TimedOut)
    ensures Next(Streaming(link), FrameWritten(r, w)) == Scanning <==>
              w.WriteFailed? && w.kind != TimedOut
  {
  }

  /** The states are entered in the order Scanning, Connecting, Streaming, Scanning. */
  lemma StateOrder(s: State, e: Event)
    requires Accepts(s, e)
    ensures Next(s, e).Connecting? ==> s == Scanning && FirstFlipper(e.ports) == Some(Next(s, e).port)
    ensures Next(s, e).Streaming? ==> (s.Connecting? && e.openResult.Opened?) || s == Next(s, e)
  {
  }

  /** No state is terminal: from every state some answer leads back to scanning. */
  lemma NoTerminalState(s: State)
    ensures exists e :: Accepts(s, e) && Next(s, e) == Scanning
  {
    match s
    case Scanning =>
      assert Accepts(s, PortsListed([])) && Next(s, PortsListed([])) == Scanning;
    case Connecting(_) =>
      assert Accepts(s, OpenAttempted(OpenFailed)) && Next(s, OpenAttempted(OpenFailed)) == Scanning;
    case Streaming(_) =>
      var e := FrameWritten(Readings(0, 0, [0], None), WriteFailed(BrokenPipe));
      assert Accepts(s, e) && Next(s, e) == Scanning;
  }

  /** One step of a trace suffix: how `Admissible`, `Final` and `Log` unfold. */
  lemma Unfold(s: State, trace: seq<Event>, i: nat, before: seq<seq<u8>>)
    requires i < |trace| && Admissible(s, trace[i..])
    ensures Accepts(s, trace[i]) && Admissible(Next(s, trace[i]), trace[i + 1..])
    ensures Final(s, trace[i..]) == Final(Next(s, trace[i]), trace[i + 1..])
    ensures before + Log(s, trace[i..])
            == (before + Delivered(s, trace[i])) + Log(Next(s, trace[i]), trace[i + 1..])
  {
    assert trace[i..][0] == trace[i] && trace[i..][1..] == trace[i + 1..];
  }

  /** A frame that encodes the snapshot of some cycle's readings. */
  ghost predicate IsSnapshotFrame(f: seq<u8>) {
    exists r :: ValidReadings(r) && Encode(GetSystemInfo(r)) == f
  }

  /** Every frame delivered over a trace is the encoded snapshot of a cycle. */
  lemma {:induction false} LoggedFramesAreSnapshots(s: State, trace: seq<Event>)
    requires Admissible(s, trace)
    ensures forall f :: f in Log(s, trace) ==> IsSnapshotFrame(f)
    decreases |trace|
  {
    if trace != [] {
      var next, rest := Next(s, trace[0]), trace[1..];
      LoggedFramesAreSnapshots(next, rest);
      assert Log(s, trace) == Delivered(s, trace[0]) + Log(next, rest);
      if Delivered(s, trace[0]) != [] {
        var r := trace[0].readings;
        assert ValidReadings(r) && Delivered(s, trace[0]) == [Encode(GetSystemInfo(r))];
      }
    }
  }

  /**
   * Reference definition of what the device receives, from the trace alone:
   * the encoded snapshot of each successfully written cycle's readings, in
   * order.  (Every written event of an admissible trace has valid readings.)
   */
  function WrittenFrames(trace: seq<Event>): (frames: seq<seq<u8>>)
    ensures |frames| <= |trace|
  {
    if trace == [] then []
    else
      var e := trace[0];
      (if e.FrameWritten? && e.writeResult.Written? && ValidReadings(e.readings)
       then [Encode(GetSystemInfo(e.readings))] else [])
      + WrittenFrames(trace[1..])
  }

  /** The frames delivered over a trace are exactly its written cycles' snapshots, in order. */
  lemma {:induction false} LogIsWrittenFrames(s: State, trace: seq<Event>)
    requires Admissible(s, trace)
    ensures Log(s, trace) == WrittenFrames(trace)
    decreases |trace|
  {
    if trace != [] {
      LogIsWrittenFrames(Next(s, trace[0]), trace[1..]);
    }
  }

  /** A frame a step delivers decodes to the snapshot of that step's readings. */
  lemma DeliveredDecodes(s: State, e: Event)
    requires Accepts(s, e) && s.Streaming? && e.writeResult.Written?
    ensures |Delivered(s, e)| == 1
    ensures Decode(Delivered(s, e)[0]) == Some(GetSystemInfo(e.readings))
  {
    DecodeEncode(GetSystemInfo(e.readings));
  }

  /** One frame is delivered per successful write, and only then. */
  lemma {:induction false} LogCountsWrites(s: State, trace: seq<Event>)
    requires Admissible(s, trace)
    ensures |Log(s, trace)| == CountWritten(trace)
    decreases |trace|
  {
    if trace != [] {
      LogCountsWrites(Next(s, trace[0]), trace[1..]);
    }
  }

  /** How a trace that starts with `e` is driven. */
  lemma Cons(s: State, e: Event, rest: seq<Event>)
    requires Accepts(s, e) && Admissible(Next(s, e), rest)
    ensures Admissible(s, [e] + rest)
    ensures Visited(s, [e] + rest) == [s] + Visited(Next(s, e), rest)
    ensures Log(s, [e] + rest) == Delivered(s, e) + Log(Next(s, e), rest)
  {
    assert ([e] + rest)[0] == e && ([e] + rest)[1..] == rest;
  }

  /** No device, then the device is found but opening it fails: back to scanning. */
  lemma OpenFailureScenario(flipper: PortInfo)
    requires IsFlipper(flipper)
    ensures var trace := [PortsListed([]), PortsListed([flipper]), OpenAttempted(OpenFailed)];
            && Admissible(Scanning, trace)
            && Visited(Scanning, trace) == [Scanning, Scanning, Connecting(flipper.name), Scanning]
            && Log(Scanning, trace) == []
  {
    var e0, e1, e2 := PortsListed([]), PortsListed([flipper]), OpenAttempted(OpenFailed);
    assert FirstFlipper([flipper]) == Some(flipper.name);
    Cons(Connecting(flipper.name), e2, []);
    Cons(Scanning, e1, [e2]);
    Cons(Scanning, e0, [e1, e2]);
  }

  /**
   * The device is found and opened (asserting DTR fails), a write times out
   * and the next one fails with a broken pipe: back to scanning, nothing delivered.
   */
  lemma BrokenPipeScenario(flipper: PortInfo, r: Readings)
    requires IsFlipper(flipper) && ValidReadings(r)
    ensures var trace := [PortsListed([flipper]), OpenAttempted(Opened(false, true)),
                          FrameWritten(r, WriteFailed(TimedOut)), FrameWritten(r, WriteFailed(BrokenPipe))];
            var link := SerialLink(flipper.name, BAUD_RATE, TIMEOUT_MS);
            && Admissible(Scanning, trace)
            && Visited(Scanning, trace)
               == [Scanning, Connecting(flipper.name), Streaming(link), Streaming(link), Scanning]
            && Log(Scanning, trace) == []
  {
    var link := SerialLink(flipper.name, BAUD_RATE, TIMEOUT_MS);
    var e1, e4 := PortsListed([flipper]), OpenAttempted(Opened(false, true));
    var e5, e6 := FrameWritten(r, WriteFailed(TimedOut)), FrameWritten(r, WriteFailed(BrokenPipe));
    assert FirstFlipper([flipper]) == Some(flipper.name);
    Cons(Streaming(link), e6, []);
    Cons(Streaming(link), e5, [e6]);
    Cons(Connecting(flipper.name), e4, [e5, e6]);
    Cons(Scanning, e1, [e4, e5, e6]);
  }

  /**
   * The whole cycle: no device, then the device is found but the open fails,
   * then it is found and opened (asserting DTR fails), a write times out and
   * the next one fails with a broken pipe.
   */
  lemma FullCycleScenario(flipper: PortInfo, r: Readings)
    requires IsFlipper(flipper) && ValidReadings(r)
    ensures var trace := [PortsListed([]), PortsListed([flipper]), OpenAttempted(OpenFailed),
                          PortsListed([flipper]), OpenAttempted(Opened(false, true)),
                          FrameWritten(r, WriteFailed(TimedOut)), FrameWritten(r, WriteFailed(BrokenPipe))];
            var link := SerialLink(flipper.name, BAUD_RATE, TIMEOUT_MS);
            && Admissible(Scanning, trace)
            && Visited(Scanning, trace)
               == [Scanning, Scanning, Connecting(flipper.name), Scanning,
                   Connecting(flipper.name), Streaming(link), Streaming(link), Scanning]
            && Log(Scanning, trace) == []
  {
    var link := SerialLink(flipper.name, BAUD_RATE, TIMEOUT_MS);
    var e0, e1, e2 := PortsListed([]), PortsListed([flipper]), OpenAttempted(OpenFailed);
    var e4 := OpenAttempted(Opened(false, true));
    var e5, e6 := FrameWritten(r, WriteFailed(TimedOut)), FrameWritten(r, WriteFailed(BrokenPipe));
    var found := Connecting(flipper.name);
    assert FirstFlipper([flipper]) == Some(flipper.name);
    var t4 := [e1, e4, e5, e6];
    assert Admissible(Scanning, t4) && Log(Scanning, t4) == []
           && Visited(Scanning, t4) == [Scanning, found, Streaming(link), Streaming(link), Scanning] by {
      BrokenPipeScenario(flipper, r);
    }
    var t5 := [e2] + t4;
    assert Admissible(found, t5) && Log(found, t5) == []
           && Visited(found, t5) == [found, Scanning, found, Streaming(link), Streaming(link), Scanning] by {
      Cons(found, e2, t4);
    }
    var t6 := [e1] + t5;
    assert Admissible(Scanning, t6) && Log(Scanning, t6) == []
           && Visited(Scanning, t6) == [Scanning, found, Scanning, found, Streaming(link), Streaming(link), Scanning] by {
      Cons(Scanning, e1, t5);
    }
    Cons(Scanning, e0, t6);
    assert [e0] + t6 == [e0, e1, e2, e1, e4, e5, e6];
  }

  /** The connection manager of `main`, one event at a time. */
  class Bridge {
    var state: State
    /** The frames the device has received, oldest first. */
    var delivered: seq<seq<u8>>

    constructor ()
      ensures state == Scanning && delivered == []
    {
      state := Scanning;
      delivered := [];
    }

    /** One step of the outer or inner loop of `main`. */
    method Step(e: Event)
      requires Accepts(state, e)
      modifies this
      ensures state == Next(old(state), e)
      ensures delivered == old(delivered) + Delivered(old(state), e)
    {
      match state
      case Scanning =>
        var name := FindFlipperPort(e.ports);
        if name.Some? {
          state := Connecting(name.value);
        }
      case Connecting(port) =>
        match e.openResult {
          case Opened(_, _) =>
            // DTR and RTS outcomes are discarded.
            state := Streaming(SerialLink(port, BAUD_RATE, TIMEOUT_MS));
          case OpenFailed =>
            state := Scanning;
        }
      case Streaming(_) =>
        var info := GetSystemInfo(e.readings);
        var data := Encode(info);
        match e.writeResult {
          case Written =>
            delivered := delivered + [data];
          case WriteFailed(kind) =>
            // A timed-out frame is dropped; any other error ends the link.
            if kind != TimedOut {
              state := Scanning;
            }
        }
    }

    /** Runs `main`'s loops over a whole trace of answers. */
    method Drive(trace: seq<Event>)
      requires Admissible(state, trace)
      modifies this
      ensures state == Final(old(state), trace)
      ensures delivered == old(delivered) + Log(old(state), trace)
    {
      var i := 0;
      while i < |trace|
        invariant 0 <= i <= |trace|
        invariant Admissible(state, trace[i..])
        invariant Final(state, trace[i..]) == Final(old(state), trace)
        invariant delivered + Log(state, trace[i..]) == old(delivered) + Log(old(state), trace)
      {
        Unfold(state, trace, i, delivered);
        Step(trace[i]);
        i := i + 1;
      }
    }
  }
}
