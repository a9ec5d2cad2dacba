/** The earlier single-class daemon (nova.py): one `NovaProWireless` object
    that reads the base station's reports in its own loop and drives the same
    two virtual sinks, without the feature registry. Its control writers are
    commented out in the source, so only the receive side and `close` remain. */
module Legacy {
  import opened Wrappers
  import opened Wire
  import opened Os
  import opened SinkSearch
  import Features

  const MSGLEN: int := 64
  const OPT_CHATMIX: byte := 69
  /** The name `_detect_original_sink` looks for: the Nova 5X sink, although
      the class is named after the Pro Wireless. */
  const DEVICE_NAME: string := "SteelSeries_Arctis_Nova_5X"
  const PW_GAME_SINK: string := "NovaGame"
  const PW_CHAT_SINK: string := "NovaChat"

  /** `_create_msgdata`: the bytes, padded with '0' up to MSGLEN. */
  function CreateMsgdata(data: seq<byte>): (r: seq<byte>)
    ensures |data| <= MSGLEN ==> |r| == MSGLEN
    ensures |data| > MSGLEN ==> r == data
    ensures r[..|data|] == data
    ensures forall i :: |data| <= i < |r| ==> r[i] == PAD
  {
    CreateMsgData(data, MSGLEN)
  }

  /** `_detect_original_sink`: a set name is kept; otherwise the first listed
      name containing DEVICE_NAME, and a line without a tab raises IndexError.
      Unlike the feature version there is no `else` on the loop: when no name
      matches, detection passes and the name stays as it was. */
  function DetectSink(current: Option<string>, lines: seq<string>): (r: (Outcome<Fault>, Option<string>))
    ensures r.0.Fail? <==> !Truthy(current) && ScanSinks(lines, DEVICE_NAME).Unsplittable?
    ensures r.0.Fail? ==> r.0.error == IndexError
    ensures r.1 == Features.DetectSink(current, lines, DEVICE_NAME).1
  {
    if Truthy(current) then (Pass, current)
    else match ScanSinks(lines, DEVICE_NAME)
      case Found(_, name) => (Pass, Some(name))
      case Unsplittable(_) => (Fail(IndexError), current)
      case Missing => (Pass, current)
  }

  /** The two detections cache the same name and disagree on the outcome
      exactly when an unset name meets a listing with no match. */
  lemma DetectionsDifferOnlyWhenMissing(current: Option<string>, lines: seq<string>)
    ensures DetectSink(current, lines).1 == Features.DetectSink(current, lines, DEVICE_NAME).1
    ensures DetectSink(current, lines).0 != Features.DetectSink(current, lines, DEVICE_NAME).0 <==>
      !Truthy(current) && ScanSinks(lines, DEVICE_NAME).Missing?
  {
  }

  /** `_start_virtual_sinks`: detect, then spawn a game and then a chat
      loopback on the detected sink, replacing whatever handles were held.
      `Popen` refuses a None argument with TypeError before spawning. */
  function StartSinks(s: Features.Sinks, lines: seq<string>, pid: nat): (r: (Outcome<Fault>, Features.Sinks))
    ensures r.0.Fail? ==> r.1 == s
    ensures r.0 == Fail(IndexError) <==> DetectSink(s.original, lines).0.Fail?
    ensures r.0 == Fail(TypeError) <==> DetectSink(s.original, lines) == (Pass, None)
    ensures r.0.Pass? ==> Features.BothOpen(r.1) && r.1.original.Some? && r.1.original == DetectSink(s.original, lines).1
    ensures r.0.Pass? ==> r.1.game.value.pid == pid && r.1.chat.value.pid == pid + 1
    ensures r.0.Pass? ==> r.1.game.value.name == PW_GAME_SINK && r.1.chat.value.name == PW_CHAT_SINK
    ensures r.0.Pass? ==> r.1.game.value.target == r.1.chat.value.target == r.1.original.value
  {
    var (found, original) := DetectSink(s.original, lines);
    if found.Fail? then (found, s)
    else if original.None? then (Fail(TypeError), s)
    else
      (Pass, Features.Sinks(original, Some(Loopback(pid, original.value, PW_GAME_SINK, true)),
                                      Some(Loopback(pid + 1, original.value, PW_CHAT_SINK, true))))
  }

  /** Starting again while both loopbacks run drops their handles for new
      processes, which the feature version never does: the old processes keep
      running and nothing terminates them later. */
  lemma RestartOrphansOpenLoopbacks(s: Features.Sinks, lines: seq<string>, pid: nat)
    requires Features.BothOpen(s) && Truthy(s.original)
    requires s.game.value.pid < pid && s.chat.value.pid < pid
    ensures StartSinks(s, lines, pid).0.Pass?
    ensures StartSinks(s, lines, pid).1.game != s.game && StartSinks(s, lines, pid).1.chat != s.chat
    ensures Features.StartSinks(s, lines, DEVICE_NAME, PW_GAME_SINK, PW_CHAT_SINK, pid).1 == s
  {
  }

  /** What the signal handler `close` returns: it calls the commented-out
      `set_chatmix_controls` / `set_sonar_icon` when their flag is up. */
  function CloseVerdict(controlsEnabled: bool, iconEnabled: bool): (r: Outcome<Fault>)
    ensures r.Pass? <==> !controlsEnabled && !iconEnabled
    ensures r.Fail? ==> r.error == AttributeError
  {
    if controlsEnabled || iconEnabled then Fail(AttributeError) else Pass
  }

  /** How the read loop leaves on one read, or None when it reads on: a
      timeout and a report other than ChatMix are skipped, an empty or short
      ChatMix report raises IndexError, a transport error is re-raised, and a
      signal runs `close`, after which the loop condition fails. */
  function Halt(e: Inbound, closeOut: Outcome<Fault>): Option<ListenEnd>
  {
    match e
    case Timeout => None
    case ReadFailure => Some(Raised(ReadError))
    case Interrupt => Some(if closeOut.Fail? then Raised(closeOut.error) else Closed)
    case Data(msg) =>
      if msg == [] then Some(Raised(IndexError))
      else if msg[0] != OPT_CHATMIX then None
      else if |msg| < 3 then Some(Raised(IndexError))
      else None
  }

  /** A read that is a complete ChatMix report. */
  predicate IsReport(e: Inbound) { e.Data? && |e.msg| >= 3 && e.msg[0] == OPT_CHATMIX }

  /** The volume commands one read sends: both volumes for a ChatMix report. */
  function Reported(e: Inbound): (r: seq<VolumeCommand>)
    ensures r != [] <==> IsReport(e)
    ensures IsReport(e) ==> r == Features.VolumeCommands(PW_GAME_SINK, PW_CHAT_SINK, e.msg)
  {
    if IsReport(e) then Features.VolumeCommands(PW_GAME_SINK, PW_CHAT_SINK, e.msg) else []
  }

  /** The volume commands a run of reads sends, in order. */
  function Commands(events: seq<Inbound>): seq<VolumeCommand>
  {
    if events == [] then [] else Commands(events[..|events| - 1]) + Reported(events[|events| - 1])
  }

  lemma {:induction false} CommandsAppend(a: seq<Inbound>, b: seq<Inbound>)
    ensures Commands(a + b) == Commands(a) + Commands(b)
    decreases |b|
  {
    if b == [] {
      assert a + b == a;
    } else {
      var c := b[..|b| - 1];
      assert (a + b)[..|a + b| - 1] == a + c;
      CommandsAppend(a, c);
    }
  }

  /** The volume commands the first `k` reads send, in order. */
  function Sent(events: seq<Inbound>, k: nat): seq<VolumeCommand>
    requires k <= |events|
  {
    if k == 0 then [] else Sent(events, k - 1) + Reported(events[k - 1])
  }

  /** A log that has the first `k` reads' commands appended gets those of
      one more read by appending that read's. */
  lemma SentSnoc(log: seq<VolumeCommand>, events: seq<Inbound>, k: nat)
    requires k < |events|
    ensures log + Sent(events, k + 1) == (log + Sent(events, k)) + Reported(events[k])
  {
  }

  /** What the first `k` reads send is what that prefix of the reads sends. */
  lemma {:induction false} SentIsCommands(events: seq<Inbound>, k: nat)
    requires k <= |events|
    ensures Sent(events, k) == Commands(events[..k])
  {
    if k > 0 {
      assert events[..k][..k - 1] == events[..k - 1];
      SentIsCommands(events, k - 1);
    }
  }

  /** The loop reads on through the first `k` reads. */
  predicate Running(events: seq<Inbound>, k: int, closeOut: Outcome<Fault>)
    requires k <= |events|
    decreases k
  {
    k <= 0 || (Running(events, k - 1, closeOut) && Halt(events[k - 1], closeOut).None?)
  }

  /** `Running` says that no read before the `k`-th stops the loop. */
  lemma {:induction false} RunningAll(events: seq<Inbound>, k: int, closeOut: Outcome<Fault>)
    requires k <= |events|
    ensures Running(events, k, closeOut) <==> forall i :: 0 <= i < k ==> Halt(events[i], closeOut).None?
    decreases k
  {
    if k > 0 {
      RunningAll(events, k - 1, closeOut);
    }
  }

  /** Reads other than ChatMix reports set no volume. */
  lemma {:induction false} OnlyReportsSetVolume(events: seq<Inbound>)
    requires forall i :: 0 <= i < |events| ==> !IsReport(events[i])
    ensures Commands(events) == []
  {
    if events != [] {
      OnlyReportsSetVolume(events[..|events| - 1]);
    }
  }

  /** Every ChatMix report sets two volumes. */
  lemma {:induction false} CommandsCount(events: seq<Inbound>)
    ensures |Commands(events)| % 2 == 0
    ensures |Commands(events)| <= 2 * |events|
  {
    if events != [] {
      CommandsCount(events[..|events| - 1]);
    }
  }

  class NovaProWireless {
    var pwOriginalSink: Option<string>
    var gameProcess: Option<Loopback>
    var chatProcess: Option<Loopback>
    var chatmixControlsEnabled: bool
    var sonarIconEnabled: bool
    var closeFlag: bool

    ghost function State(): Features.Sinks reads this
    {
      Features.Sinks(pwOriginalSink, gameProcess, chatProcess)
    }

    /** The class attributes' defaults; device lookup is not part of this model. */
    constructor ()
      ensures State() == Features.Sinks(None, None, None)
      ensures !chatmixControlsEnabled && !sonarIconEnabled && !closeFlag
    {
      pwOriginalSink, gameProcess, chatProcess := None, None, None;
      chatmixControlsEnabled, sonarIconEnabled, closeFlag := false, false, false;
    }

    method DetectOriginalSink(host: Host) returns (out: Outcome<Fault>)
      modifies this`pwOriginalSink, host`listQueries
      ensures (out, pwOriginalSink) == DetectSink(old(pwOriginalSink), host.listing)
      ensures host.listQueries == old(host.listQueries) + (if Truthy(old(pwOriginalSink)) then 0 else 1)
    {
      if Truthy(pwOriginalSink) {
        return Pass;
      }
      var lines := host.ListSinks();
      var found := FindSink(lines, DEVICE_NAME);
      match found {
        case Found(_, name) =>
          pwOriginalSink := Some(name);
          out := Pass;
        case Unsplittable(_) =>
          out := Fail(IndexError);
        case Missing =>
          out := Pass;
      }
    }

    method StartVirtualSinks(host: Host) returns (out: Outcome<Fault>)
      modifies this`pwOriginalSink, this`gameProcess, this`chatProcess, host`listQueries, host`nextPid
      ensures (out, State()) == StartSinks(old(State()), host.listing, old(host.nextPid))
      ensures host.listQueries == old(host.listQueries) + (if Truthy(old(pwOriginalSink)) then 0 else 1)
      ensures host.nextPid == old(host.nextPid) + (if out.Pass? then 2 else 0)
    {
      out := DetectOriginalSink(host);
      if out.Fail? {
        return;
      }
      if pwOriginalSink.None? {
        return Fail(TypeError);
      }
      var game := host.Spawn(pwOriginalSink.value, PW_GAME_SINK);
      gameProcess := Some(game);
      var chat := host.Spawn(pwOriginalSink.value, PW_CHAT_SINK);
      chatProcess := Some(chat);
    }

    /** `_remove_virtual_sinks`: terminate game, then chat; a missing handle
        raises AttributeError, and a missing game handle stops it before chat. */
    method RemoveVirtualSinks(host: Host) returns (out: Outcome<Fault>)
      modifies this`gameProcess, this`chatProcess, host`terminated
      ensures out.Pass? <==> old(gameProcess).Some? && old(chatProcess).Some?
      ensures out.Fail? ==> out.error == AttributeError
      ensures old(gameProcess).None? ==> unchanged(this) && host.terminated == old(host.terminated)
      ensures old(gameProcess).Some? ==>
        State() == Features.StopSinks(old(State())) &&
        host.terminated == old(host.terminated) + Features.Pids(old(gameProcess)) + Features.Pids(old(chatProcess))
    {
      if gameProcess.None? {
        return Fail(AttributeError);
      }
      var game := host.Terminate(gameProcess.value);
      gameProcess := Some(game);
      if chatProcess.None? {
        return Fail(AttributeError);
      }
      var chat := host.Terminate(chatProcess.value);
      chatProcess := Some(chat);
      out := Pass;
    }

    /** `close`, the signal handler: raise the CLOSE flag, then the
        commented-out disable calls for whichever feature is flagged on. */
    method Close() returns (out: Outcome<Fault>)
      modifies this`closeFlag
      ensures closeFlag
      ensures out == CloseVerdict(chatmixControlsEnabled, sonarIconEnabled)
    {
      closeFlag := true;
      if chatmixControlsEnabled || sonarIconEnabled {
        return Fail(AttributeError);
      }
      out := Pass;
    }

    /** `chatmix`: start the loopbacks, read until CLOSE is up, setting the
        two volumes from every ChatMix report, then remove the loopbacks.
        `consumed` counts the events read. An exception leaves the loopbacks
        running. */
    method Chatmix(events: seq<Inbound>, host: Host) returns (consumed: nat, out: ListenEnd)
      modifies this`pwOriginalSink, this`gameProcess, this`chatProcess, this`closeFlag
      modifies host`listQueries, host`nextPid, host`volumeLog, host`terminated
      ensures chatmixControlsEnabled == old(chatmixControlsEnabled) && sonarIconEnabled == old(sonarIconEnabled)
      ensures consumed <= |events|
      ensures host.listQueries == old(host.listQueries) + (if Truthy(old(pwOriginalSink)) then 0 else 1)
      ensures host.nextPid == old(host.nextPid) +
        (if StartSinks(old(State()), host.listing, old(host.nextPid)).0.Pass? then 2 else 0)
      ensures closeFlag == (old(closeFlag) || (consumed > 0 && events[consumed - 1].Interrupt?))
      ensures out == Closed ==> closeFlag
      ensures out == Exhausted ==> closeFlag == old(closeFlag)
      ensures StartSinks(old(State()), host.listing, old(host.nextPid)).0.Fail? ==>
        consumed == 0 && out == Raised(StartSinks(old(State()), host.listing, old(host.nextPid)).0.error) &&
        State() == old(State()) && host.volumeLog == old(host.volumeLog) && host.terminated == old(host.terminated)
      ensures StartSinks(old(State()), host.listing, old(host.nextPid)).0.Pass? ==>
        Reads(events, consumed, out, old(closeFlag), CloseVerdict(old(chatmixControlsEnabled), old(sonarIconEnabled))) &&
        host.volumeLog == old(host.volumeLog) + Sent(events, consumed) &&
        Ends(StartSinks(old(State()), host.listing, old(host.nextPid)).1, old(host.terminated), out, State(), host.terminated)
    {
      var started := StartVirtualSinks(host);
      if started.Fail? {
        return 0, Raised(started.error);
      }
      consumed, out := ReadReports(events, host);
      if out == Closed {
        var _ := RemoveVirtualSinks(host);
      }
    }

    /** One pass of the loop body on the read `e`: `Halt` says whether the
        loop leaves, except that a signal whose `close` passes only raises
        CLOSE and lets the loop condition end it. */
    method Step(e: Inbound, host: Host) returns (stop: Option<ListenEnd>)
      modifies this`closeFlag, host`volumeLog
      ensures host.volumeLog == old(host.volumeLog) + Reported(e)
      ensures closeFlag == (old(closeFlag) || e.Interrupt?)
      ensures Halt(e, CloseVerdict(chatmixControlsEnabled, sonarIconEnabled)) ==
        if e.Interrupt? && stop.None? then Some(Closed) else stop
    {
      match e {
        case Timeout =>
          stop := None;
        case ReadFailure =>
          stop := Some(Raised(ReadError));
        case Interrupt =>
          var closed := Close();
          stop := if closed.Fail? then Some(Raised(closed.error)) else None;
        case Data(msg) =>
          if msg == [] {
            stop := Some(Raised(IndexError));
          } else if msg[0] != OPT_CHATMIX {
            stop := None;
          } else if |msg| < 3 {
            stop := Some(Raised(IndexError));
          } else {
            host.SetSinkVolume("input." + PW_GAME_SINK, msg[1]);
            host.SetSinkVolume("input." + PW_CHAT_SINK, msg[2]);
            stop := None;
          }
      }
    }

    /** The `while not self.CLOSE` loop of `chatmix`. */
    method ReadReports(events: seq<Inbound>, host: Host) returns (consumed: nat, out: ListenEnd)
      modifies this`closeFlag, host`volumeLog
      ensures Reads(events, consumed, out, old(closeFlag), CloseVerdict(chatmixControlsEnabled, sonarIconEnabled))
      ensures host.volumeLog == old(host.volumeLog) + Sent(events, consumed)
      ensures closeFlag == (old(closeFlag) || (consumed > 0 && events[consumed - 1].Interrupt?))
      ensures out == Closed ==> closeFlag
      ensures out == Exhausted ==> closeFlag == old(closeFlag)
    {
      ghost var closeOut := CloseVerdict(chatmixControlsEnabled, sonarIconEnabled);
      ghost var log0 := host.volumeLog;
      consumed := 0;
      while !closeFlag
        invariant consumed <= |events|
        invariant host.volumeLog == log0 + Sent(events, consumed)
        invariant old(closeFlag) ==> closeFlag && consumed == 0
        invariant !old(closeFlag) ==> Progress(events, consumed, closeFlag, closeOut)
        decreases |events| - consumed
      {
        if consumed == |events| {
          ReadsExhausted(events, closeOut);
          return consumed, Exhausted;
        }
        SentSnoc(log0, events, consumed);
        var stop := Step(events[consumed], host);
        assert host.volumeLog == log0 + Sent(events, consumed + 1);
        assert closeOut == CloseVerdict(chatmixControlsEnabled, sonarIconEnabled);
        if stop.Some? {
          ReadsStopped(events, consumed, stop.value, closeOut);
          return consumed + 1, stop.value;
        }
        ReadOn(events, consumed, closeOut);
        consumed := consumed + 1;
      }
      if !old(closeFlag) {
        ReadsClosed(events, consumed, closeOut);
      }
      out := Closed;
    }
  }

  /** Where the loop stands before its condition is tested, once it has
      read `k` events: it read on through all but the last, and through the
      last too unless that was a signal whose `close` passed and raised CLOSE. */
  ghost predicate Progress(events: seq<Inbound>, k: nat, closing: bool, closeOut: Outcome<Fault>)
  {
    k <= |events| && Running(events, k - 1, closeOut) &&
    if closing then k > 0 && events[k - 1].Interrupt? && closeOut.Pass? else Running(events, k, closeOut)
  }

  /** A read that does not stop the loop moves it on by one, raising CLOSE
      exactly when the read was a signal. */
  lemma ReadOn(events: seq<Inbound>, k: nat, closeOut: Outcome<Fault>)
    requires Progress(events, k, false, closeOut) && k < |events|
    requires Halt(events[k], closeOut) == if events[k].Interrupt? then Some(Closed) else None
    ensures Progress(events, k + 1, events[k].Interrupt?, closeOut)
  {
  }

  /** A loop that read on through every event ran out of them, and did not
      see a signal last. */
  lemma ReadsExhausted(events: seq<Inbound>, closeOut: Outcome<Fault>)
    requires Progress(events, |events|, false, closeOut)
    ensures Reads(events, |events|, Exhausted, false, closeOut)
    ensures |events| > 0 ==> !events[|events| - 1].Interrupt?
  {
  }

  /** A loop that read on through `k` events and left at the next one left
      as `Halt` says; it left closed only on a signal. */
  lemma ReadsStopped(events: seq<Inbound>, k: nat, out: ListenEnd, closeOut: Outcome<Fault>)
    requires Progress(events, k, false, closeOut) && k < |events|
    requires Halt(events[k], closeOut) == Some(out)
    ensures Reads(events, k + 1, out, false, closeOut)
    ensures out == Closed ==> events[k].Interrupt?
  {
  }

  /** A loop whose last read was a signal whose `close` passed left closed. */
  lemma ReadsClosed(events: seq<Inbound>, k: nat, closeOut: Outcome<Fault>)
    requires Progress(events, k, true, closeOut)
    ensures Reads(events, k, Closed, false, closeOut)
  {
  }

  /** The reads a `chatmix` loop performed: every read but the last let it
      read on; it stopped at the last read in the way `Halt` says, or it ran
      out of events while reading on; a CLOSE flag already up means no read. */
  ghost predicate Reads(events: seq<Inbound>, consumed: nat, out: ListenEnd, closing: bool, closeOut: Outcome<Fault>)
  {
    consumed <= |events| &&
    Running(events, consumed - 1, closeOut) &&
    (out == Exhausted ==> !closing && consumed == |events| && Running(events, consumed, closeOut)) &&
    (out != Exhausted ==>
      if consumed == 0 then closing && out == Closed else !closing && Halt(events[consumed - 1], closeOut) == Some(out))
  }

  /** The loopbacks after the loop: removed, both terminated game first, when
      it closed; untouched when it raised or ran out of events. */
  ghost predicate Ends(started: Features.Sinks, terminated0: seq<nat>, out: ListenEnd, state: Features.Sinks, terminated: seq<nat>)
  {
    if out == Closed then
      state == Features.StopSinks(started) &&
      terminated == terminated0 + Features.Pids(started.game) + Features.Pids(started.chat)
    else
      state == started && terminated == terminated0
  }
}
