/** The capabilities a headset attaches (nova-chatmix.py): their opcode tables,
    their guarded control writes and the ChatMix virtual-sink state machine. */
module Features {
  import opened Wrappers
  import opened Wire
  import opened Os
  import opened SinkSearch

  /** The feature classes; `Headset.actions` is keyed by these. */
  datatype Kind = SonarIconKind | ChatMixKind | VolumeKind | EQKind

  /** The bound methods a listener table can hold. */
  datatype Handler =
    | Ignore                        // HeadsetFeature.ignore: the report is consumed and dropped
    | ChatMixReport(chat: ChatMix)  // ChatMix.chatmix of that feature object
    | PowerChange(chat: ChatMix)    // Nova5X.on_power_change, acting on the device's ChatMix

  /** The bound lifecycle hooks; ChatMix.on_close is the only hook a feature defines. */
  datatype Hook = ChatMixClose(chat: ChatMix)

  /** `int(state)` as a parameter byte. */
  function Bit(state: bool): byte { if state then 1 else 0 }

  /** The packets one `_write(dev, *data)` call appends to the device log. */
  function Sent(tx: Option<byte>, data: seq<byte>, packetSize: int): (r: seq<seq<byte>>)
    ensures tx.None? ==> r == []
    ensures tx.Some? ==> |r| == 1 && |r[0]| == Max(1 + |data|, packetSize)
    ensures tx.Some? ==> r[0][0] == tx.value && r[0][1..1 + |data|] == data
    ensures tx.Some? ==> forall i :: 1 + |data| <= i < |r[0]| ==> r[0][i] == PAD
  {
    if tx.None? then []
    else
      var packet := CreateMsgData([tx.value] + data, packetSize);
      assert packet[..1 + |data|] == [tx.value] + data;
      assert packet[1..1 + |data|] == ([tx.value] + data)[1..];
      [packet]
  }

  /** `HeadsetFeature._write`: refused with false when the feature has no
      outbound direction byte, otherwise one padded packet is written. */
  method Write(tx: Option<byte>, dev: Channel, data: seq<byte>) returns (ok: bool)
    modifies dev
    ensures ok == tx.Some?
    ensures dev.written == old(dev.written) + Sent(tx, data, dev.packetSize)
  {
    if tx.None? {
      return false;
    }
    dev.Write(CreateMsgData([tx.value] + data, dev.packetSize));
    return true;
  }

  class SonarIcon {
    const tx: Option<byte>
    const rx: byte
    const optSonarIcon: byte
    var sonarIconEnabled: bool

    constructor (tx: Option<byte>, rx: byte, optSonarIcon: byte)
      ensures this.tx == tx && this.rx == rx && this.optSonarIcon == optSonarIcon
      ensures !sonarIconEnabled
    {
      this.tx, this.rx, this.optSonarIcon := tx, rx, optSonarIcon;
      sonarIconEnabled := false;
    }

    /** `set_sonar_icon`: the flag follows `state` only when the write went out. */
    method SetSonarIcon(dev: Channel, state: bool)
      modifies this, dev
      ensures dev.written == old(dev.written) + Sent(tx, [optSonarIcon, Bit(state)], dev.packetSize)
      ensures sonarIconEnabled == if tx.Some? then state else old(sonarIconEnabled)
    {
      var ok := Write(tx, dev, [optSonarIcon, Bit(state)]);
      if ok {
        sonarIconEnabled := state;
      }
    }
  }

  class Volume {
    const tx: Option<byte>
    const rx: byte
    const optVolume: byte

    constructor (tx: Option<byte>, rx: byte, optVolume: byte)
      ensures this.tx == tx && this.rx == rx && this.optVolume == optVolume
    {
      this.tx, this.rx, this.optVolume := tx, rx, optVolume;
    }

    /** `set_volume`. */
    method SetVolume(dev: Channel, attenuation: byte)
      modifies dev
      ensures dev.written == old(dev.written) + Sent(tx, [optVolume, attenuation], dev.packetSize)
    {
      var _ := Write(tx, dev, [optVolume, attenuation]);
    }
  }

  class EQ {
    const tx: Option<byte>
    const rx: byte
    const optEq: byte
    const optEqPreset: byte

    constructor (tx: Option<byte>, rx: byte, optEq: byte, optEqPreset: byte)
      ensures this.tx == tx && this.rx == rx && this.optEq == optEq && this.optEqPreset == optEqPreset
    {
      this.tx, this.rx, this.optEq, this.optEqPreset := tx, rx, optEq, optEqPreset;
    }

    /** `set_eq_preset`. */
    method SetEQPreset(dev: Channel, preset: byte)
      modifies dev
      ensures dev.written == old(dev.written) + Sent(tx, [optEqPreset, preset], dev.packetSize)
    {
      var _ := Write(tx, dev, [optEqPreset, preset]);
    }
  }

  /** Auto-detection can settle on a name: one is already set, or a listed
      line names a sink containing the pattern before any line fails to split. */
  predicate Resolvable(current: Option<string>, lines: seq<string>, pat: string)
  {
    Truthy(current) || ScanSinks(lines, pat).Found?
  }

  /** `_detect_original_sink`: the outcome and the cached sink name. A set
      name is kept; otherwise the scan decides: the found name is cached, a
      line without a tab raises IndexError, no match raises RuntimeError. */
  function DetectSink(current: Option<string>, lines: seq<string>, pat: string): (r: (Outcome<Fault>, Option<string>))
    ensures r.0.Pass? <==> Resolvable(current, lines, pat)
    ensures Truthy(current) ==> r.1 == current
    ensures r.0.Fail? ==> r.1 == current
    ensures r.0.Fail? ==> (r.0.error == IndexError <==> ScanSinks(lines, pat).Unsplittable?)
    ensures r.0.Fail? ==> (r.0.error == OriginalSinkNotFound <==> ScanSinks(lines, pat).Missing?)
    ensures r.1 != current ==>
      r.1.Some? && IsInfix(pat, r.1.value) && NameField(lines[ScanSinks(lines, pat).index]) == r.1
  {
    if Truthy(current) then (Pass, current)
    else match ScanSinks(lines, pat)
      case Found(_, name) => (Pass, Some(name))
      case Unsplittable(_) => (Fail(IndexError), current)
      case Missing => (Fail(OriginalSinkNotFound), current)
  }

  /** Detection with a non-empty pattern settles: once it has resolved a name,
      running it again against any later listing keeps that name and passes. */
  lemma DetectSinkSettles(current: Option<string>, lines: seq<string>, later: seq<string>, pat: string)
    requires pat != [] && Resolvable(current, lines, pat)
    ensures Truthy(DetectSink(current, lines, pat).1)
    ensures DetectSink(DetectSink(current, lines, pat).1, later, pat) == (Pass, DetectSink(current, lines, pat).1)
  {
  }

  /** `pactl` ends its output with a newline, so the split listing ends in an
      empty line: an unresolved detection then fails with IndexError at that
      line and never reaches the `RuntimeError("Original Sink not found")`. */
  lemma TerminatedListingFailsWithIndexError(current: Option<string>, lines: seq<string>, pat: string)
    requires |lines| > 0 && lines[|lines| - 1] == []
    ensures DetectSink(current, lines, pat).0 != Fail(OriginalSinkNotFound)
    ensures !Resolvable(current, lines, pat) ==> DetectSink(current, lines, pat).0 == Fail(IndexError)
  {
  }

  /** The resolved real sink and the two loopback handles of a ChatMix feature. */
  datatype Sinks = Sinks(original: Option<string>, game: Option<Loopback>, chat: Option<Loopback>)

  /** Both loopbacks are present and alive (`False not in _are_sinks_open()`). */
  predicate BothOpen(s: Sinks) { IsOpen(s.game) && IsOpen(s.chat) }

  /** One handle after `_start_virtual_sinks`: kept when open, else a new process. */
  function Restart(p: Option<Loopback>, target: string, name: string, pid: nat): (r: Option<Loopback>)
    ensures IsOpen(r)
    ensures IsOpen(p) ==> r == p
    ensures !IsOpen(p) ==> r.value.pid == pid && r.value.target == target && r.value.name == name
  {
    if IsOpen(p) then p else Some(Loopback(pid, target, name, true))
  }

  /** How many processes `Restart` spawns. */
  function Spawns(p: Option<Loopback>): nat { if IsOpen(p) then 0 else 1 }

  /** One handle after `terminate()`: a present handle reads as exited. The
      model takes the SIGTERM to end the process at once, so `poll()` no
      longer returns None right after it. */
  function Stopped(p: Option<Loopback>): (r: Option<Loopback>)
    ensures !IsOpen(r)
    ensures r.Some? <==> p.Some?
    ensures r.Some? ==> r.value == p.value.(alive := false)
  {
    if p.Some? then Some(p.value.(alive := false)) else None
  }

  /** The pid a `terminate()` call on the handle records, if it is present. */
  function Pids(p: Option<Loopback>): seq<nat> { if p.Some? then [p.value.pid] else [] }

  /** `_start_virtual_sinks`: detect the real sink, then start every loopback
      that is not open; `pid` is the first pid a new process gets. */
  function StartSinks(s: Sinks, listed: seq<string>, pat: string, gameName: string, chatName: string, pid: nat)
    : (r: (Outcome<Fault>, Sinks))
    ensures (r.0, r.1.original) == DetectSink(s.original, listed, pat)
    ensures r.0.Fail? ==> r.1 == s
    ensures r.0.Pass? ==> BothOpen(r.1) && r.1.original.Some?
    ensures IsOpen(s.game) ==> r.1.game == s.game
    ensures IsOpen(s.chat) ==> r.1.chat == s.chat
    ensures r.0.Pass? && !IsOpen(s.game) ==> r.1.game == Some(Loopback(pid, r.1.original.value, gameName, true))
    ensures r.0.Pass? && !IsOpen(s.chat) ==>
      r.1.chat == Some(Loopback(pid + Spawns(s.game), r.1.original.value, chatName, true))
  {
    var (found, original) := DetectSink(s.original, listed, pat);
    if found.Fail? then (found, s)
    else
      var game := Restart(s.game, original.value, gameName, pid);
      var chat := Restart(s.chat, original.value, chatName, pid + Spawns(s.game));
      (Pass, Sinks(original, game, chat))
  }

  /** `_remove_virtual_sinks`: every present loopback is terminated. */
  function StopSinks(s: Sinks): (r: Sinks)
    ensures !IsOpen(r.game) && !IsOpen(r.chat) && r.original == s.original
  {
    s.(game := Stopped(s.game), chat := Stopped(s.chat))
  }

  /** The sink phase of the `chatmix` handler: nothing when both are open,
      otherwise `_start_virtual_sinks`. */
  function EnsureSinks(s: Sinks, listed: seq<string>, pat: string, gameName: string, chatName: string, pid: nat)
    : (r: (Outcome<Fault>, Sinks))
    ensures r.0.Pass? ==> BothOpen(r.1)
    ensures r.0.Fail? ==> r.0.error in {IndexError, OriginalSinkNotFound} && r.1 == s
    ensures IsOpen(s.game) ==> r.1.game == s.game
    ensures IsOpen(s.chat) ==> r.1.chat == s.chat
    ensures BothOpen(s) ==> r == (Pass, s)
    ensures !BothOpen(s) ==> (r.0, r.1.original) == DetectSink(s.original, listed, pat)
    ensures r.0.Pass? && !IsOpen(s.game) ==> r.1.game == Some(Loopback(pid, r.1.original.value, gameName, true))
    ensures r.0.Pass? && !IsOpen(s.chat) ==>
      r.1.chat == Some(Loopback(pid + Spawns(s.game), r.1.original.value, chatName, true))
  {
    if BothOpen(s) then (Pass, s) else StartSinks(s, listed, pat, gameName, chatName, pid)
  }

  /** Power off then power on: whatever the handles were before, both
      loopbacks are started anew, game first, when the real sink resolves. */
  lemma PowerCycleRestartsBoth(s: Sinks, listed: seq<string>, pat: string, gameName: string, chatName: string, pid: nat)
    requires Resolvable(s.original, listed, pat)
    ensures var r := StartSinks(StopSinks(s), listed, pat, gameName, chatName, pid);
      r.0.Pass? && BothOpen(r.1) &&
      r.1.game.value.pid == pid && r.1.chat.value.pid == pid + 1 &&
      r.1.game.value.name == gameName && r.1.chat.value.name == chatName &&
      r.1.game.value.target == r.1.chat.value.target == r.1.original.value
  {
  }

  /** The volume commands a ChatMix report sends: game first, then chat. */
  function VolumeCommands(gameName: string, chatName: string, msg: seq<byte>): (r: seq<VolumeCommand>)
    requires |msg| >= 3
    ensures |r| == 2 && r[0].percent == msg[1] && r[1].percent == msg[2]
    ensures r[0].sinkInput == "input." + gameName && r[1].sinkInput == "input." + chatName
  {
    [VolumeCommand("input." + gameName, msg[1]), VolumeCommand("input." + chatName, msg[2])]
  }

  class ChatMix {
    const tx: Option<byte>
    const rx: byte
    const deviceName: string
    const optChatmix: byte
    const optChatmixEnable: byte
    const pwGameSink: string
    const pwChatSink: string
    var pwOriginalSink: Option<string>
    var gameProcess: Option<Loopback>
    var chatProcess: Option<Loopback>
    var controlsEnabled: bool

    /** Controls are only ever recorded as enabled after a write went out. */
    ghost predicate Valid() reads this { controlsEnabled ==> tx.Some? }

    ghost function State(): Sinks reads this { Sinks(pwOriginalSink, gameProcess, chatProcess) }

    constructor (tx: Option<byte>, rx: byte, deviceName: string, optChatmix: byte, optChatmixEnable: byte,
                 pwOriginalSink: Option<string>, pwGameSink: string, pwChatSink: string)
      ensures Valid() && !controlsEnabled
      ensures this.tx == tx && this.rx == rx && this.deviceName == deviceName
      ensures this.optChatmix == optChatmix && this.optChatmixEnable == optChatmixEnable
      ensures this.pwGameSink == pwGameSink && this.pwChatSink == pwChatSink
      ensures State() == Sinks(pwOriginalSink, None, None)
    {
      this.tx, this.rx, this.deviceName := tx, rx, deviceName;
      this.optChatmix, this.optChatmixEnable := optChatmix, optChatmixEnable;
      this.pwGameSink, this.pwChatSink := pwGameSink, pwChatSink;
      this.pwOriginalSink := pwOriginalSink;
      gameProcess, chatProcess := None, None;
      controlsEnabled := false;
    }

    /** `set_chatmix_controls`: the flag follows `state` only when the write went out. */
    method SetChatMixControls(dev: Channel, state: bool)
      requires Valid()
      modifies this`controlsEnabled, dev
      ensures Valid()
      ensures dev.written == old(dev.written) + Sent(tx, [optChatmixEnable, Bit(state)], dev.packetSize)
      ensures controlsEnabled == if tx.Some? then state else old(controlsEnabled)
    {
      var ok := Write(tx, dev, [optChatmixEnable, Bit(state)]);
      if ok {
        controlsEnabled := state;
      }
    }

    /** `on_close`: only when controls are enabled, disable them on the
        device and then terminate the loopbacks; otherwise nothing happens. */
    method OnClose(dev: Channel, host: Host)
      requires Valid()
      modifies this`controlsEnabled, this`gameProcess, this`chatProcess, dev, host`terminated
      ensures Valid() && !controlsEnabled
      ensures old(controlsEnabled) ==>
        dev.written == old(dev.written) + Sent(tx, [optChatmixEnable, 0], dev.packetSize) &&
        State() == StopSinks(old(State())) &&
        host.terminated == old(host.terminated) + Pids(old(gameProcess)) + Pids(old(chatProcess))
      ensures !old(controlsEnabled) ==>
        unchanged(this) && dev.written == old(dev.written) && unchanged(host)
    {
      if controlsEnabled {
        SetChatMixControls(dev, false);
        RemoveVirtualSinks(host);
      }
    }

    /** `_detect_original_sink`: a set name is kept without querying;
        otherwise the listing is scanned for a name containing `deviceName`. */
    method DetectOriginalSink(host: Host) returns (out: Outcome<Fault>)
      modifies this`pwOriginalSink, host`listQueries
      ensures (out, pwOriginalSink) == DetectSink(old(pwOriginalSink), host.listing, deviceName)
      ensures host.listQueries == old(host.listQueries) + (if Truthy(old(pwOriginalSink)) then 0 else 1)
    {
      if Truthy(pwOriginalSink) {
        return Pass;
      }
      var lines := host.ListSinks();
      var found := FindSink(lines, deviceName);
      match found {
        case Found(_, name) =>
          pwOriginalSink := Some(name);
          out := Pass;
        case Unsplittable(_) =>
          out := Fail(IndexError);
        case Missing =>
          out := Fail(OriginalSinkNotFound);
      }
    }

    /** `_are_sinks_open`. */
    function SinksOpen(): (r: (bool, bool)) reads this
      ensures r.0 && r.1 <==> BothOpen(State())
      ensures r.0 <==> gameProcess.Some? && gameProcess.value.alive
      ensures r.1 <==> chatProcess.Some? && chatProcess.value.alive
    {
      (IsOpen(gameProcess), IsOpen(chatProcess))
    }

    /** `_start_virtual_sinks`. */
    method StartVirtualSinks(host: Host) returns (out: Outcome<Fault>)
      requires Valid()
      modifies this`pwOriginalSink, this`gameProcess, this`chatProcess, host`listQueries, host`nextPid
      ensures Valid()
      ensures (out, State()) == StartSinks(old(State()), host.listing, deviceName, pwGameSink, pwChatSink, old(host.nextPid))
      ensures host.listQueries == old(host.listQueries) + (if Truthy(old(pwOriginalSink)) then 0 else 1)
      ensures host.nextPid == old(host.nextPid) +
        (if out.Pass? then Spawns(old(gameProcess)) + Spawns(old(chatProcess)) else 0)
    {
      out := DetectOriginalSink(host);
      if out.Fail? {
        return;
      }
      var target := pwOriginalSink.value;
      var open := SinksOpen();
      if !open.0 {
        var p := host.Spawn(target, pwGameSink);
        gameProcess := Some(p);
      }
      if !open.1 {
        var p := host.Spawn(target, pwChatSink);
        chatProcess := Some(p);
      }
    }

    /** `_remove_virtual_sinks`. */
    method RemoveVirtualSinks(host: Host)
      modifies this`gameProcess, this`chatProcess, host`terminated
      ensures State() == StopSinks(old(State()))
      ensures host.terminated == old(host.terminated) + Pids(old(gameProcess)) + Pids(old(chatProcess))
    {
      if gameProcess.Some? {
        var p := host.Terminate(gameProcess.value);
        gameProcess := Some(p);
      }
      if chatProcess.Some? {
        var p := host.Terminate(chatProcess.value);
        chatProcess := Some(p);
      }
    }

    /** `chatmix`, the handler of the ChatMix report: make sure both loopbacks
        run, then set game volume to `msg[1]` and chat volume to `msg[2]`. */
    method Chatmix(msg: seq<byte>, host: Host) returns (out: Outcome<Fault>)
      requires Valid()
      modifies this`pwOriginalSink, this`gameProcess, this`chatProcess
      modifies host`listQueries, host`nextPid, host`volumeLog
      ensures Valid()
      ensures var (started, sinks) :=
          EnsureSinks(old(State()), host.listing, deviceName, pwGameSink, pwChatSink, old(host.nextPid));
        State() == sinks &&
        (started.Fail? ==> out == started && host.volumeLog == old(host.volumeLog)) &&
        (started.Pass? && |msg| < 3 ==> out == Fail(IndexError) && host.volumeLog == old(host.volumeLog)) &&
        (started.Pass? && |msg| >= 3 ==>
          out.Pass? && host.volumeLog == old(host.volumeLog) + VolumeCommands(pwGameSink, pwChatSink, msg))
      ensures BothOpen(old(State())) ==> host.listQueries == old(host.listQueries) && host.nextPid == old(host.nextPid)
      ensures !BothOpen(old(State())) ==>
        host.listQueries == old(host.listQueries) + (if Truthy(old(pwOriginalSink)) then 0 else 1) &&
        host.nextPid == old(host.nextPid) +
          (if StartSinks(old(State()), host.listing, deviceName, pwGameSink, pwChatSink, old(host.nextPid)).0.Pass?
           then Spawns(old(gameProcess)) + Spawns(old(chatProcess)) else 0)
    {
      var open := SinksOpen();
      if !open.0 || !open.1 {
        out := StartVirtualSinks(host);
        if out.Fail? {
          return;
        }
      }
      if |msg| < 3 {
        return Fail(IndexError);
      }
      host.SetSinkVolume("input." + pwGameSink, msg[1]);
      host.SetSinkVolume("input." + pwChatSink, msg[2]);
      out := Pass;
    }
  }

  /** A feature object as stored in `Headset.actions`. */
  datatype Feature =
    | SonarIconFeature(icon: SonarIcon)
    | ChatMixFeature(chat: ChatMix)
    | VolumeFeature(volume: Volume)
    | EQFeature(eq: EQ)
  {
    /** `feature.__class__`. */
    function KindOf(): Kind
    {
      match this
      case SonarIconFeature(_) => SonarIconKind
      case ChatMixFeature(_) => ChatMixKind
      case VolumeFeature(_) => VolumeKind
      case EQFeature(_) => EQKind
    }

    function Tx(): Option<byte>
    {
      match this
      case SonarIconFeature(f) => f.tx
      case ChatMixFeature(f) => f.tx
      case VolumeFeature(f) => f.tx
      case EQFeature(f) => f.tx
    }

    /** The `opt_codes` property: the opcodes this feature listens for. */
    function OptCodes(): map<byte, Handler>
    {
      match this
      case SonarIconFeature(_) => map[]
      case ChatMixFeature(f) => map[f.optChatmix := ChatMixReport(f)]
      case VolumeFeature(f) => map[f.optVolume := Ignore]
      case EQFeature(f) => map[f.optEq := Ignore]
    }

    /** `on_open`, when the feature has one: none of the features does. */
    function OpenHook(): Option<Hook> { None }

    /** `on_close`, when the feature has one: only ChatMix does. */
    function CloseHook(): Option<Hook>
    {
      if ChatMixFeature? then Some(ChatMixClose(chat)) else None
    }
  }

  /** The `opt_codes` tables: SonarIcon claims no opcode; every other feature
      claims exactly one, ChatMix for its report handler, Volume and EQ for
      `ignore`. */
  lemma OptCodesClaims(f: Feature)
    ensures |f.OptCodes()| <= 1 && (f.OptCodes() == map[] <==> f.SonarIconFeature?)
    ensures forall op :: op in f.OptCodes() ==> (f.OptCodes()[op] == Ignore <==> f.VolumeFeature? || f.EQFeature?)
    ensures f.ChatMixFeature? ==> f.OptCodes() == map[f.chat.optChatmix := ChatMixReport(f.chat)]
  {
  }

  /** A control method passed to `attempt_action`, with its arguments. */
  datatype Action =
    | SetSonarIcon(state: bool)
    | SetChatMixControls(state: bool)
    | SetVolume(attenuation: byte)
    | SetEQPreset(preset: byte)
  {
    /** The class that defines the method. */
    function Owner(): Kind
    {
      match this
      case SetSonarIcon(_) => SonarIconKind
      case SetChatMixControls(_) => ChatMixKind
      case SetVolume(_) => VolumeKind
      case SetEQPreset(_) => EQKind
    }

    /** The opcode and parameter the method writes through `f`. */
    function Payload(f: Feature): seq<byte>
      requires f.KindOf() == Owner()
    {
      match this
      case SetSonarIcon(state) => [f.icon.optSonarIcon, Bit(state)]
      case SetChatMixControls(state) => [f.chat.optChatmixEnable, Bit(state)]
      case SetVolume(attenuation) => [f.volume.optVolume, attenuation]
      case SetEQPreset(preset) => [f.eq.optEqPreset, preset]
    }
  }
}
