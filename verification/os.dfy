/** The operating-system side the daemon drives through `subprocess`: the sink
    list printed by `pactl list sinks short`, `pw-loopback` processes, and
    `pactl set-sink-volume` commands. Processes are values with a pid and a
    liveness flag; an external death is a loopback whose `alive` is false. */
module Os {
  import opened Wrappers
  import opened Wire

  /** A `pw-loopback -P <target> ... -n <name>` process. */
  datatype Loopback = Loopback(pid: nat, target: string, name: string, alive: bool)

  /** `pactl set-sink-volume <sinkInput> <percent>%`. */
  datatype VolumeCommand = VolumeCommand(sinkInput: string, percent: byte)

  /** The exceptions the modelled code lets escape. */
  datatype Fault =
    | OriginalSinkNotFound  // RuntimeError("Original Sink not found")
    | IndexError            // a packet shorter than the bytes read, or a sink line without a tab
    | TypeError             // Popen given None as the loopback target
    | AttributeError        // a method looked up on None, or a missing method
    | ReadError             // a fatal transport error raised by the read

  /** How a read loop stopped: it saw the closing flag and shut down; the
      events ran out while it was still reading (standing in for a read that
      blocks for ever); or an exception escaped. */
  datatype ListenEnd = Closed | Exhausted | Raised(fault: Fault)

  /** `_are_sinks_open` for one handle: present and not yet exited. */
  predicate IsOpen(p: Option<Loopback>) { p.Some? && p.value.alive }

  class Host {
    /** The output of `pactl list sinks short`, split on newlines. */
    var listing: seq<string>
    /** How many times the sink list was queried. */
    var listQueries: nat
    /** The pid the next spawned process gets. */
    var nextPid: nat
    var volumeLog: seq<VolumeCommand>
    /** Pids of every `terminate()` call, in order. */
    var terminated: seq<nat>

    constructor (listing: seq<string>)
      ensures this.listing == listing && listQueries == 0 && nextPid == 0
      ensures volumeLog == [] && terminated == []
    {
      this.listing := listing;
      listQueries, nextPid := 0, 0;
      volumeLog, terminated := [], [];
    }

    method ListSinks() returns (lines: seq<string>)
      modifies this`listQueries
      ensures lines == listing && listQueries == old(listQueries) + 1
    {
      lines := listing;
      listQueries := listQueries + 1;
    }

    /** `Popen(["pw-loopback", "-P", target, ..., "-n", name])`. */
    method Spawn(target: string, name: string) returns (p: Loopback)
      modifies this`nextPid
      ensures p == Loopback(old(nextPid), target, name, true)
      ensures nextPid == old(nextPid) + 1
    {
      p := Loopback(nextPid, target, name, true);
      nextPid := nextPid + 1;
    }

    /** `p.terminate()`, which sends SIGTERM; the model takes the process to
        have exited by the next `poll()`, so the handle reads as exited. */
    method Terminate(p: Loopback) returns (q: Loopback)
      modifies this`terminated
      ensures q == p.(alive := false)
      ensures terminated == old(terminated) + [p.pid]
    {
      q := p.(alive := false);
      terminated := terminated + [p.pid];
    }

    method SetSinkVolume(sinkInput: string, percent: byte)
      modifies this`volumeLog
      ensures volumeLog == old(volumeLog) + [VolumeCommand(sinkInput, percent)]
    {
      volumeLog := volumeLog + [VolumeCommand(sinkInput, percent)];
    }
  }
}
