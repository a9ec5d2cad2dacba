/** The feature registry and dispatch loop (`Headset` in nova-chatmix.py) and
    the two device models built on it. */
module Registry {
  import opened Wrappers
  import opened Wire
  import opened Os
  import opened SinkSearch
  import opened Features

  /** The handler `listen` picks for one inbound event: a non-empty packet
      whose first byte is registered; nothing for anything else. */
  function Lookup(listeners: map<byte, Handler>, e: Inbound): Option<Handler>
  {
    if e.Data? && e.msg != [] && e.msg[0] in listeners then Some(listeners[e.msg[0]]) else None
  }

  /** The handlers `listen` invokes for a run of inbound events, in order. */
  function Route(listeners: map<byte, Handler>, events: seq<Inbound>): seq<Handler>
  {
    if events == [] then []
    else
      Route(listeners, events[..|events| - 1]) +
      (match Lookup(listeners, events[|events| - 1]) case Some(h) => [h] case None => [])
  }

  lemma {:induction false} RouteAppend(listeners: map<byte, Handler>, a: seq<Inbound>, b: seq<Inbound>)
    ensures Route(listeners, a + b) == Route(listeners, a) + Route(listeners, b)
    decreases |b|
  {
    if b == [] {
      assert a + b == a;
    } else {
      var b' := b[..|b| - 1];
      assert (a + b)[..|a + b| - 1] == a + b';
      RouteAppend(listeners, a, b');
    }
  }

  /** Dispatching one packet invokes exactly the handler registered for its
      first byte, once; an empty read or an unregistered opcode invokes none. */
  lemma RouteOne(listeners: map<byte, Handler>, msg: seq<byte>)
    ensures msg != [] && msg[0] in listeners ==> Route(listeners, [Data(msg)]) == [listeners[msg[0]]]
    ensures msg == [] || msg[0] !in listeners ==> Route(listeners, [Data(msg)]) == []
  {
  }

  /** Events that carry no registered opcode invoke no handler at all. */
  lemma {:induction false} RouteNothing(listeners: map<byte, Handler>, events: seq<Inbound>)
    requires forall j :: 0 <= j < |events| ==> Lookup(listeners, events[j]).None?
    ensures Route(listeners, events) == []
    decreases |events|
  {
    if events != [] {
      RouteNothing(listeners, events[..|events| - 1]);
    }
  }

  /** Merging opcode tables (`dict.update`) keeps every earlier entry the new
      table does not claim, and the new table wins on a collision. */
  lemma MergeKeepsOrOverrides(listeners: map<byte, Handler>, codes: map<byte, Handler>, op: byte)
    ensures op in codes ==> op in listeners + codes && (listeners + codes)[op] == codes[op]
    ensures op !in codes && op in listeners ==> op in listeners + codes && (listeners + codes)[op] == listeners[op]
    ensures op in listeners + codes <==> op in listeners || op in codes
  {
  }

  /** Attaching two features whose opcode tables are disjoint gives the same
      listener table in either order. */
  lemma DisjointMergeCommutes(listeners: map<byte, Handler>, a: map<byte, Handler>, b: map<byte, Handler>)
    requires a.Keys !! b.Keys
    ensures listeners + a + b == listeners + b + a
  {
  }

  /** Hooks attached for a feature that has them. */
  function HookList(h: Option<Hook>): seq<Hook> { if h.Some? then [h.value] else [] }

  /** The listener table after attaching `fs` in order on top of `listeners`. */
  function MergeCodes(listeners: map<byte, Handler>, fs: seq<Feature>): map<byte, Handler>
  {
    if fs == [] then listeners else MergeCodes(listeners, fs[..|fs| - 1]) + fs[|fs| - 1].OptCodes()
  }

  /** The action table after attaching `fs` in order. */
  function AttachActions(actions: map<Kind, Feature>, fs: seq<Feature>): map<Kind, Feature>
  {
    if fs == [] then actions else AttachActions(actions, fs[..|fs| - 1])[fs[|fs| - 1].KindOf() := fs[|fs| - 1]]
  }

  /** The close hooks `fs` contribute, in attachment order. */
  function CloseHooks(fs: seq<Feature>): seq<Hook>
  {
    if fs == [] then [] else CloseHooks(fs[..|fs| - 1]) + HookList(fs[|fs| - 1].CloseHook())
  }

  /** Attaching features leaves the entry of an opcode none of them claims
      as it was. */
  lemma {:induction false} MergeCodesKeepsUnclaimed(listeners: map<byte, Handler>, fs: seq<Feature>, op: byte)
    requires forall i :: 0 <= i < |fs| ==> op !in fs[i].OptCodes()
    ensures op in MergeCodes(listeners, fs) <==> op in listeners
    ensures op in listeners ==> MergeCodes(listeners, fs)[op] == listeners[op]
  {
    if fs != [] {
      MergeCodesKeepsUnclaimed(listeners, fs[..|fs| - 1], op);
    }
  }

  /** An opcode claimed by several attached features ends up with the handler
      of the last one to claim it. */
  lemma {:induction false} MergeCodesLastClaimWins(listeners: map<byte, Handler>, fs: seq<Feature>, op: byte, k: nat)
    requires k < |fs| && op in fs[k].OptCodes()
    requires forall j :: k < j < |fs| ==> op !in fs[j].OptCodes()
    ensures op in MergeCodes(listeners, fs) && MergeCodes(listeners, fs)[op] == fs[k].OptCodes()[op]
  {
    if k < |fs| - 1 {
      MergeCodesLastClaimWins(listeners, fs[..|fs| - 1], op, k);
    }
  }

  /** The action of a class is the last attached feature of that class. */
  lemma {:induction false} AttachActionsLastWins(actions: map<Kind, Feature>, fs: seq<Feature>, k: nat)
    requires k < |fs|
    requires forall j :: k < j < |fs| ==> fs[j].KindOf() != fs[k].KindOf()
    ensures fs[k].KindOf() in AttachActions(actions, fs) && AttachActions(actions, fs)[fs[k].KindOf()] == fs[k]
  {
    if k < |fs| - 1 {
      AttachActionsLastWins(actions, fs[..|fs| - 1], k);
    }
  }

  /** The ChatMix object a feature is, if it is one. */
  function ChatOf(f: Feature): set<ChatMix> { if f.ChatMixFeature? then {f.chat} else {} }

  /** The SonarIcon object a feature is, if it is one. */
  function IconOf(f: Feature): set<SonarIcon> { if f.SonarIconFeature? then {f.icon} else {} }

  /** The ChatMix objects among `fs`. */
  function ChatsOf(fs: seq<Feature>): set<ChatMix>
  {
    if fs == [] then {} else ChatsOf(fs[..|fs| - 1]) + ChatOf(fs[|fs| - 1])
  }

  /** The SonarIcon objects among `fs`. */
  function IconsOf(fs: seq<Feature>): set<SonarIcon>
  {
    if fs == [] then {} else IconsOf(fs[..|fs| - 1]) + IconOf(fs[|fs| - 1])
  }

  /** The ChatMix objects a list of hooks is bound to. */
  function HookedChats(hooks: seq<Hook>): set<ChatMix>
  {
    set h | h in hooks :: h.chat
  }

  /** Whether running `hook` after `earlier` acts: its ChatMix has controls
      enabled and no earlier hook was bound to the same object (that one would
      have disabled them already). */
  ghost predicate Acts(earlier: seq<Hook>, hook: Hook)
    reads hook.chat`controlsEnabled
  {
    hook.chat.controlsEnabled && hook.chat !in HookedChats(earlier)
  }

  /** The packets the close hooks write, in order, judged in the state before
      `close`: the disable packet of every ChatMix whose first hook acts. */
  ghost function ClosePackets(hooks: seq<Hook>, packetSize: int): seq<seq<byte>>
    reads HookedChats(hooks)`controlsEnabled
  {
    if hooks == [] then []
    else
      var last := hooks[|hooks| - 1];
      ClosePackets(hooks[..|hooks| - 1], packetSize) +
      (if Acts(hooks[..|hooks| - 1], last) then Sent(last.chat.tx, [last.chat.optChatmixEnable, 0], packetSize) else [])
  }

  /** The pids the close hooks terminate, in order: game then chat of every
      ChatMix whose first hook acts. */
  ghost function ClosePids(hooks: seq<Hook>): seq<nat>
    reads HookedChats(hooks)
  {
    if hooks == [] then []
    else
      var last := hooks[|hooks| - 1];
      ClosePids(hooks[..|hooks| - 1]) +
      (if Acts(hooks[..|hooks| - 1], last) then Pids(last.chat.gameProcess) + Pids(last.chat.chatProcess) else [])
  }

  /** Close hooks whose ChatMix objects all have their controls disabled
      write nothing and terminate nothing. */
  lemma {:induction false} DisabledHooksAreQuiet(hooks: seq<Hook>, packetSize: int)
    requires forall h :: h in hooks ==> !h.chat.controlsEnabled
    ensures ClosePackets(hooks, packetSize) == [] && ClosePids(hooks) == []
  {
    if hooks != [] {
      DisabledHooksAreQuiet(hooks[..|hooks| - 1], packetSize);
    }
  }

  /** A read that `listen` survives and loops past. */
  predicate KeepsListening(e: Inbound) { e.Data? || e.Timeout? }

  class Headset {
    const dev: Channel
    var actions: map<Kind, Feature>
    var listeners: map<byte, Handler>
    var onOpen: seq<Hook>
    var onClose: seq<Hook>
    var closing: bool
    /** The ChatMix and SonarIcon objects attached so far. */
    ghost var Chats: set<ChatMix>
    ghost var Icons: set<SonarIcon>

    ghost predicate Owned(f: Feature) reads this
    {
      (f.ChatMixFeature? ==> f.chat in Chats) && (f.SonarIconFeature? ==> f.icon in Icons)
    }

    ghost predicate Valid() reads this, Chats
    {
      (forall k :: k in actions ==> actions[k].KindOf() == k && Owned(actions[k])) &&
      (forall op :: op in listeners ==> (listeners[op].Ignore? || listeners[op].chat in Chats)) &&
      onOpen == [] &&
      HookedChats(onClose) <= Chats &&
      (forall c :: c in Chats ==> c.Valid())
    }

    /** Every ChatMix with a close hook has its controls disabled. */
    ghost predicate HooksDisabled() reads this, Chats
      requires Valid()
    {
      forall c :: c in HookedChats(onClose) ==> !c.controlsEnabled
    }

    /** Every attached ChatMix lacks a TX byte, as on the receive-only Nova 5X:
        its controls can never be enabled, so no close hook ever acts. */
    ghost predicate ReceiveOnly() reads this, Chats
    {
      forall c :: c in Chats ==> c.tx.None?
    }

    /** `Headset.__init__` once the device is found: nothing attached yet. */
    constructor (packetSize: int)
      ensures Valid() && fresh(dev) && dev.packetSize == packetSize && dev.written == []
      ensures actions == map[] && listeners == map[] && onOpen == [] && onClose == []
      ensures !closing && Chats == {} && Icons == {}
    {
      dev := new Channel(packetSize);
      actions, listeners := map[], map[];
      onOpen, onClose := [], [];
      closing := false;
      Chats, Icons := {}, {};
    }

    /** `_add_feature`. */
    method AddFeature(f: Feature)
      requires Valid()
      requires f.ChatMixFeature? ==> f.chat.Valid()
      modifies this
      ensures Valid()
      ensures listeners == old(listeners) + f.OptCodes()
      ensures actions == old(actions)[f.KindOf() := f]
      ensures onOpen == old(onOpen) + HookList(f.OpenHook())
      ensures onClose == old(onClose) + HookList(f.CloseHook())
      ensures closing == old(closing)
      ensures Chats == old(Chats) + ChatOf(f) && Icons == old(Icons) + IconOf(f)
    {
      if f.ChatMixFeature? {
        Chats := Chats + {f.chat};
      }
      if f.SonarIconFeature? {
        Icons := Icons + {f.icon};
      }
      listeners := listeners + f.OptCodes();
      actions := actions[f.KindOf() := f];
      onOpen := onOpen + HookList(f.OpenHook());
      onClose := onClose + HookList(f.CloseHook());
    }

    /** `_add_features`: attach each feature in turn. */
    method AddFeatures(fs: seq<Feature>)
      requires Valid()
      requires forall i :: 0 <= i < |fs| && fs[i].ChatMixFeature? ==> fs[i].chat.Valid()
      modifies this
      ensures Valid()
      ensures listeners == MergeCodes(old(listeners), fs)
      ensures actions == AttachActions(old(actions), fs)
      ensures onOpen == old(onOpen)
      ensures onClose == old(onClose) + CloseHooks(fs)
      ensures closing == old(closing)
      ensures Chats == old(Chats) + ChatsOf(fs) && Icons == old(Icons) + IconsOf(fs)
    {
      for i := 0 to |fs|
        invariant Valid()
        invariant listeners == MergeCodes(old(listeners), fs[..i])
        invariant actions == AttachActions(old(actions), fs[..i])
        invariant onOpen == old(onOpen)
        invariant onClose == old(onClose) + CloseHooks(fs[..i])
        invariant closing == old(closing)
        invariant Chats == old(Chats) + ChatsOf(fs[..i]) && Icons == old(Icons) + IconsOf(fs[..i])
      {
        assert fs[..i + 1][..i] == fs[..i];
        AddFeature(fs[i]);
      }
      assert fs[..|fs|] == fs;
    }

    /** `attempt_action(cls, method, *args)`: invoke the method on the attached
        feature of its class, or report that none is attached. */
    method AttemptAction(action: Action) returns (invoked: bool)
      requires Valid()
      modifies dev, Chats, Icons
      ensures Valid()
      ensures invoked <==> action.Owner() in actions
      ensures !invoked ==> (dev.written == old(dev.written) &&
        (forall c :: c in Chats ==> unchanged(c)) && (forall i :: i in Icons ==> unchanged(i)))
      ensures invoked ==>
        var f := actions[action.Owner()];
        dev.written == old(dev.written) + Sent(f.Tx(), action.Payload(f), dev.packetSize)
      ensures invoked && action.SetChatMixControls? ==>
        var c := actions[ChatMixKind].chat;
        c.controlsEnabled == if c.tx.Some? then action.state else old(c.controlsEnabled)
      ensures invoked && action.SetSonarIcon? ==>
        var i := actions[SonarIconKind].icon;
        i.sonarIconEnabled == if i.tx.Some? then action.state else old(i.sonarIconEnabled)
      ensures forall c :: c in Chats ==> c.State() == old(c.State())
      ensures forall c :: c in Chats && !(invoked && action.SetChatMixControls? && c == actions[ChatMixKind].chat) ==>
        unchanged(c)
      ensures forall i :: i in Icons && !(invoked && action.SetSonarIcon? && i == actions[SonarIconKind].icon) ==>
        unchanged(i)
    {
      if action.Owner() !in actions {
        return false;
      }
      var f := actions[action.Owner()];
      match action {
        case SetSonarIcon(state) => f.icon.SetSonarIcon(dev, state);
        case SetChatMixControls(state) => f.chat.SetChatMixControls(dev, state);
        case SetVolume(attenuation) => f.volume.SetVolume(dev, attenuation);
        case SetEQPreset(preset) => f.eq.SetEQPreset(dev, preset);
      }
      return true;
    }

    /** `open`: run the open hooks in attachment order. No attachable feature
        defines `on_open` (see `Feature.OpenHook`), so `Valid` keeps the list
        empty and no hook is ever run. */
    method Open()
      requires Valid()
      ensures Valid()
    {
      for i := 0 to |onOpen| {
        assert false;
      }
    }

    /** The hook loop of `close`: run every close hook in order. Each hook's
        ChatMix, when its controls are enabled, writes its disable packet and
        terminates its loopbacks game first; a later hook on the same object
        finds the controls disabled and does nothing. */
    method RunCloseHooks(host: Host)
      requires Valid()
      modifies dev, Chats, host`terminated
      ensures Valid() && HooksDisabled()
      ensures dev.written == old(dev.written) + old(ClosePackets(onClose, dev.packetSize))
      ensures host.terminated == old(host.terminated) + old(ClosePids(onClose))
      ensures forall c :: c in Chats && old(c.controlsEnabled) && c in HookedChats(onClose) ==>
        !c.controlsEnabled && c.State() == StopSinks(old(c.State()))
      ensures forall c :: c in Chats && !(old(c.controlsEnabled) && c in HookedChats(onClose)) ==> unchanged(c)
    {
      for i := 0 to |onClose|
        invariant Valid()
        invariant dev.written == old(dev.written) + old(ClosePackets(onClose[..i], dev.packetSize))
        invariant host.terminated == old(host.terminated) + old(ClosePids(onClose[..i]))
        invariant forall c :: c in Chats && old(c.controlsEnabled) && c in HookedChats(onClose[..i]) ==>
          !c.controlsEnabled && c.State() == StopSinks(old(c.State()))
        invariant forall c :: c in Chats && !(old(c.controlsEnabled) && c in HookedChats(onClose[..i])) ==> unchanged(c)
      {
        var c := onClose[i].chat;
        assert onClose[..i + 1][..i] == onClose[..i];
        assert HookedChats(onClose[..i + 1]) == HookedChats(onClose[..i]) + {c};
        c.OnClose(dev, host);
      }
      assert onClose[..|onClose|] == onClose;
    }

    /** `close`: raise the closing flag and run the close hooks. A second
        `close` neither writes, nor terminates, nor disables again. */
    method Close(host: Host)
      requires Valid()
      modifies this`closing, dev, Chats, host`terminated
      ensures Valid() && closing && HooksDisabled()
      ensures dev.written == old(dev.written) + old(ClosePackets(onClose, dev.packetSize))
      ensures host.terminated == old(host.terminated) + old(ClosePids(onClose))
      ensures forall c :: c in Chats && old(c.controlsEnabled) && c in HookedChats(onClose) ==>
        !c.controlsEnabled && c.State() == StopSinks(old(c.State()))
      ensures forall c :: c in Chats && !(old(c.controlsEnabled) && c in HookedChats(onClose)) ==> unchanged(c)
      ensures old(HooksDisabled()) ==>
        dev.written == old(dev.written) && unchanged(host) && forall c :: c in Chats ==> unchanged(c)
    {
      closing := true;
      if HooksDisabled() {
        DisabledHooksAreQuiet(onClose, dev.packetSize);
      }
      RunCloseHooks(host);
      if old(HooksDisabled()) {
        assert host.terminated == old(host.terminated);
      }
    }

    /** `action(msg)`: run one handler from the listener table. */
    method Invoke(h: Handler, msg: seq<byte>, host: Host) returns (out: Outcome<Fault>)
      requires Valid() && (h.Ignore? || h.chat in Chats)
      modifies Chats, host
      ensures Valid()
      ensures h.Ignore? ==> out.Pass? && unchanged(host) && forall c :: c in Chats ==> unchanged(c)
      ensures forall c :: c in Chats ==> c.controlsEnabled == old(c.controlsEnabled)
    {
      match h
      case Ignore => out := Pass;
      case ChatMixReport(chat) => out := chat.Chatmix(msg, host);
      case PowerChange(chat) => out := OnPowerChange(chat, msg, host);
    }

    /** One pass of the body of `listen`'s loop on the read `e`: a signal
        runs `close`, a transport error is raised, an empty read is skipped,
        and a packet whose first byte has a listener runs it, raising what the
        listener raises. `handler` is that listener. */
    method Step(e: Inbound, host: Host) returns (handler: Option<Handler>, stop: Option<ListenEnd>)
      requires Valid() && !closing
      modifies this`closing, dev, Chats, host
      ensures Valid()
      ensures handler == Lookup(listeners, e)
      ensures closing == (e == Interrupt)
      ensures e == ReadFailure ==> stop == Some(Raised(ReadError))
      ensures stop.Some? ==> (stop.value.Raised? &&
        ((e == ReadFailure && stop.value.fault == ReadError) || (handler.Some? && !handler.value.Ignore?)))
      ensures e == Interrupt ==> stop.None? && HooksDisabled()
      ensures e != Interrupt ==> forall c :: c in Chats ==> c.controlsEnabled == old(c.controlsEnabled)
      ensures dev.written == old(dev.written) + (if e == Interrupt then old(ClosePackets(onClose, dev.packetSize)) else [])
      ensures ReceiveOnly() ==> dev.written == old(dev.written)
    {
      handler, stop := None, None;
      match e {
        case Interrupt =>
          Close(host);
        case ReadFailure =>
          stop := Some(Raised(ReadError));
        case Timeout =>
        case Data(msg) =>
          if msg != [] && msg[0] in listeners {
            handler := Some(listeners[msg[0]]);
            var r := Invoke(handler.value, msg, host);
            if r.Fail? {
              stop := Some(Raised(r.error));
            }
          }
      }
    }

    /** `listen`: read until the closing flag is up, routing each non-empty
        packet by its first byte; then `close`. `invoked` lists the handlers
        run, and `consumed` counts the events read. */
    method Listen(events: seq<Inbound>, host: Host) returns (invoked: seq<Handler>, consumed: nat, out: ListenEnd)
      requires Valid()
      modifies this`closing, dev, Chats, host
      ensures Valid()
      ensures consumed <= |events|
      ensures invoked == Route(listeners, events[..consumed])
      ensures forall j :: 0 <= j < consumed - 1 ==> KeepsListening(events[j])
      ensures out == Exhausted ==> !closing && consumed == |events| && !old(closing)
      ensures out == Exhausted ==> forall j :: 0 <= j < |events| ==> KeepsListening(events[j])
      ensures consumed > 0 && events[consumed - 1] == Interrupt ==> out == Closed
      ensures consumed > 0 && events[consumed - 1] == ReadFailure ==> out == Raised(ReadError)
      ensures out == Closed ==> (closing && HooksDisabled() &&
        if old(closing) then consumed == 0 else consumed > 0 && events[consumed - 1] == Interrupt)
      ensures out.Raised? ==> (!closing && consumed > 0 &&
        ((events[consumed - 1] == ReadFailure && out.fault == ReadError) ||
         (Lookup(listeners, events[consumed - 1]).Some? && !Lookup(listeners, events[consumed - 1]).value.Ignore?)))
      ensures ReceiveOnly() ==> dev.written == old(dev.written)
      ensures dev.written == old(dev.written) + (if out == Closed then old(ClosePackets(onClose, dev.packetSize)) else [])
    {
      var i := 0;
      invoked := [];
      while !closing && i < |events|
        invariant 0 <= i <= |events|
        invariant Valid()
        invariant invoked == Route(listeners, events[..i])
        invariant forall j :: 0 <= j < i - 1 ==> KeepsListening(events[j])
        invariant !closing ==> forall j :: 0 <= j < i ==> KeepsListening(events[j])
        invariant old(closing) ==> closing && i == 0
        invariant closing ==> (if old(closing) then i == 0 else i > 0 && events[i - 1] == Interrupt)
        invariant ReceiveOnly() ==> dev.written == old(dev.written)
        invariant old(closing) || !closing ==> forall c :: c in Chats ==> c.controlsEnabled == old(c.controlsEnabled)
        invariant closing && !old(closing) ==> HooksDisabled()
        invariant dev.written == old(dev.written) +
          (if closing && !old(closing) then old(ClosePackets(onClose, dev.packetSize)) else [])
        decreases |events| - i
      {
        var handler, stop := Step(events[i], host);
        assert events[..i + 1][..i] == events[..i];
        invoked := invoked + (match handler case Some(h) => [h] case None => []);
        if stop.Some? {
          return invoked, i + 1, stop.value;
        }
        i := i + 1;
      }
      consumed := i;
      if closing {
        Close(host);
        out := Closed;
      } else {
        out := Exhausted;
      }
    }
  }

  /** `Nova5X.on_power_change`: power byte 2 terminates the loopbacks, 3
      starts those that are not open, anything else is ignored. */
  method OnPowerChange(chat: ChatMix, msg: seq<byte>, host: Host) returns (out: Outcome<Fault>)
    requires chat.Valid()
    modifies chat`pwOriginalSink, chat`gameProcess, chat`chatProcess, host`terminated, host`listQueries, host`nextPid
    ensures chat.Valid()
    ensures |msg| < 2 ==> out == Fail(IndexError) && unchanged(chat) && unchanged(host)
    ensures |msg| >= 2 && msg[1] == 2 ==>
      out.Pass? && chat.State() == StopSinks(old(chat.State())) &&
      host.terminated == old(host.terminated) + Pids(old(chat.gameProcess)) + Pids(old(chat.chatProcess))
    ensures |msg| >= 2 && msg[1] == 3 ==>
      (out, chat.State()) ==
        StartSinks(old(chat.State()), host.listing, chat.deviceName, chat.pwGameSink, chat.pwChatSink, old(host.nextPid)) &&
      host.terminated == old(host.terminated) &&
      host.listQueries == old(host.listQueries) + (if Truthy(old(chat.pwOriginalSink)) then 0 else 1) &&
      host.nextPid == old(host.nextPid) + (if out.Pass? then Spawns(old(chat.gameProcess)) + Spawns(old(chat.chatProcess)) else 0)
    ensures !(|msg| >= 2 && msg[1] == 3) ==> host.listQueries == old(host.listQueries) && host.nextPid == old(host.nextPid)
    ensures |msg| >= 2 && msg[1] != 2 && msg[1] != 3 ==> out.Pass? && unchanged(chat) && unchanged(host)
    ensures host.volumeLog == old(host.volumeLog) && host.listing == old(host.listing)
  {
    if |msg| < 2 {
      return Fail(IndexError);
    }
    if msg[1] == 2 {
      chat.RemoveVirtualSinks(host);
      out := Pass;
    } else if msg[1] == 3 {
      out := chat.StartVirtualSinks(host);
    } else {
      out := Pass;
    }
  }

  const NOVA_PACKET_SIZE: int := 64
  const NOVA_RX: byte := 0x7

  /** The tables `NovaProWireless.__init__` builds: its ChatMix report on
      0x45, Volume and EQ reports consumed on 0x25 and 0x31, SonarIcon silent;
      one action per class; ChatMix's close hook. */
  lemma ProWirelessTables(icon: SonarIcon, chat: ChatMix, volume: Volume, eq: EQ)
    requires chat.optChatmix == 0x45 && volume.optVolume == 0x25 && eq.optEq == 0x31
    ensures var fs := [SonarIconFeature(icon), ChatMixFeature(chat), VolumeFeature(volume), EQFeature(eq)];
      MergeCodes(map[], fs) == map[0x45 := ChatMixReport(chat), 0x25 := Ignore, 0x31 := Ignore] &&
      AttachActions(map[], fs) == map[SonarIconKind := fs[0], ChatMixKind := fs[1], VolumeKind := fs[2], EQKind := fs[3]] &&
      CloseHooks(fs) == [ChatMixClose(chat)] &&
      ChatsOf(fs) == {chat} && IconsOf(fs) == {icon}
  {
    var fs := [SonarIconFeature(icon), ChatMixFeature(chat), VolumeFeature(volume), EQFeature(eq)];
    assert fs[..3] == [fs[0], fs[1], fs[2]];
    assert [fs[0], fs[1], fs[2]][..2] == [fs[0], fs[1]];
    assert [fs[0], fs[1]][..1] == [fs[0]];
    assert [fs[0]][..0] == [];
    assert MergeCodes(map[], [fs[0]]) == map[];
    assert MergeCodes(map[], [fs[0], fs[1]]) == map[0x45 := ChatMixReport(chat)];
    assert MergeCodes(map[], [fs[0], fs[1], fs[2]]) == map[0x45 := ChatMixReport(chat), 0x25 := Ignore];
    assert AttachActions(map[], [fs[0]]) == map[SonarIconKind := fs[0]];
    assert AttachActions(map[], [fs[0], fs[1]]) == map[SonarIconKind := fs[0], ChatMixKind := fs[1]];
    assert CloseHooks([fs[0]]) == [];
    assert CloseHooks([fs[0], fs[1]]) == [ChatMixClose(chat)];
    assert CloseHooks([fs[0], fs[1], fs[2]]) == [ChatMixClose(chat)];
    assert ChatsOf([fs[0]]) == {} && IconsOf([fs[0]]) == {icon};
    assert ChatsOf([fs[0], fs[1]]) == {chat} && IconsOf([fs[0], fs[1]]) == {icon};
    assert ChatsOf([fs[0], fs[1], fs[2]]) == {chat} && IconsOf([fs[0], fs[1], fs[2]]) == {icon};
  }

  /** `NovaProWireless()`: the four features, then `open`. */
  method NewNovaProWireless() returns (h: Headset, chat: ChatMix)
    ensures h.Valid() && fresh(h) && fresh(h.dev) && fresh(chat) && !h.closing
    ensures h.dev.packetSize == NOVA_PACKET_SIZE && h.dev.written == []
    ensures h.listeners == map[0x45 := ChatMixReport(chat), 0x25 := Ignore, 0x31 := Ignore]
    ensures h.actions.Keys == {SonarIconKind, ChatMixKind, VolumeKind, EQKind}
    ensures h.actions[ChatMixKind] == ChatMixFeature(chat) && chat.tx == Some(0x6)
    ensures h.onOpen == [] && h.onClose == [ChatMixClose(chat)]
    ensures h.Chats == {chat} && h.Icons == {h.actions[SonarIconKind].icon} && fresh(h.Icons)
    ensures chat.deviceName == "SteelSeries_Arctis_Nova_Pro_Wireless" && chat.rx == NOVA_RX
    ensures chat.optChatmix == 0x45 && chat.optChatmixEnable == 0x49
    ensures chat.pwGameSink == "NovaGame" && chat.pwChatSink == "NovaChat"
    ensures chat.State() == Sinks(None, None, None) && !chat.controlsEnabled
  {
    h := new Headset(NOVA_PACKET_SIZE);
    var tx: Option<byte> := Some(0x6);
    var icon := new SonarIcon(tx, NOVA_RX, 0x8D);
    chat := new ChatMix(tx, NOVA_RX, "SteelSeries_Arctis_Nova_Pro_Wireless", 0x45, 0x49, None, "NovaGame", "NovaChat");
    var volume := new Volume(tx, NOVA_RX, 0x25);
    var eq := new EQ(tx, NOVA_RX, 0x31, 0x2E);
    h.AddFeatures([SonarIconFeature(icon), ChatMixFeature(chat), VolumeFeature(volume), EQFeature(eq)]);
    ProWirelessTables(icon, chat, volume, eq);
    h.Open();
  }

  /** `Nova5X()`: receive-only (no TX), ChatMix alone, the power listener on
      0xB9, then `open`. */
  method NewNova5X() returns (h: Headset, chat: ChatMix)
    ensures h.listeners == map[0x45 := ChatMixReport(chat), 0xB9 := PowerChange(chat)]
    ensures h.actions == map[ChatMixKind := ChatMixFeature(chat)] && chat.tx == None
    ensures h.onOpen == [] && h.onClose == [ChatMixClose(chat)]
    ensures fresh(h) && fresh(h.dev) && fresh(chat) && h.Valid() && !h.closing
    ensures h.Chats == {chat} && h.Icons == {}
    ensures chat.deviceName == "SteelSeries_Arctis_Nova_5X" && chat.rx == NOVA_RX
    ensures chat.optChatmix == 0x45 && chat.optChatmixEnable == 0x49
    ensures chat.pwGameSink == "NovaGame" && chat.pwChatSink == "NovaChat"
    ensures chat.State() == Sinks(None, None, None) && !chat.controlsEnabled
    ensures h.dev.packetSize == NOVA_PACKET_SIZE && h.dev.written == []
  {
    h := new Headset(NOVA_PACKET_SIZE);
    chat := new ChatMix(None, NOVA_RX, "SteelSeries_Arctis_Nova_5X", 0x45, 0x49, None, "NovaGame", "NovaChat");
    h.AddFeature(ChatMixFeature(chat));
    h.listeners := h.listeners[0xB9 := PowerChange(chat)];
    h.Open();
  }

  /** The script entry (`if __name__ == "__main__"`): build a Nova 5X, try to
      turn on the Sonar icon and the ChatMix controls, listen, and close again
      in the `finally` clause. The 5X has no SonarIcon and no TX byte, so the
      first attempt finds no feature, the second writes nothing, and the
      headset never writes a packet, not even when it closes. */
  method RunNova5X(events: seq<Inbound>, host: Host)
    returns (h: Headset, chat: ChatMix, iconAttached: bool, chatAttached: bool, consumed: nat, out: ListenEnd)
    modifies host
    ensures fresh(h) && h.Valid() && h.closing && h.Chats == {chat}
    ensures !iconAttached && chatAttached
    ensures h.dev.written == [] && !chat.controlsEnabled
    ensures consumed <= |events|
    ensures out == Exhausted ==> consumed == |events|
    ensures out == Closed ==> consumed > 0 && events[consumed - 1] == Interrupt
  {
    h, chat := NewNova5X();
    iconAttached := h.AttemptAction(SetSonarIcon(true));
    chatAttached := h.AttemptAction(SetChatMixControls(true));
    var invoked;
    invoked, consumed, out := h.Listen(events, host);
    h.Close(host);
  }
}
