/**
 * Channel events, setup commands and the two status handlers that a sensor
 * installs when it attaches to a known device or scans for all devices
 * (src/sensors/BaseSensor.ts, the `onStatus` closures built in `scan` and `attach`).
 *
 * The numeric values of the protocol constants and the byte layouts of the
 * outbound messages are not modelled: constants become constructors, and an
 * outbound message is the `Cmd` value that names the helper that builds it.
 */
module Channel {

  import opened Wrappers

  /** Outbound commands, one constructor per message helper used by the sensor. */
  datatype Cmd =
    | AssignChannel(channel: int, channelType: string)
    | SetDevice(channel: int, deviceID: int, deviceType: int, transmissionType: int)
    | SearchChannel(channel: int, timeout: int)
    | SetFrequency(channel: int, frequency: int)
    | SetPeriod(channel: int, period: int)
    | SetRxExt
    | LibConfig(channel: int, flags: int)
    | OpenChannel(channel: int)
    | OpenRxScan
    | CloseChannel(channel: int)
    | UnassignChannel(channel: int)
    | Payload(bytes: seq<int>)  // a data message a concrete sensor hands to `send`

  /** The channel a command addresses, if its message carries one. */
  function Addressed(c: Cmd): Option<int>
  {
    match c
    case SetRxExt => None
    case OpenRxScan => None
    case Payload(_) => None
    case _ => Some(c.channel)
  }

  /** The message byte of a channel-event frame: which request the event answers. */
  datatype MessageId =
    | MessageRF
    | ChannelAssign
    | ChannelId
    | ChannelSearchTimeout
    | ChannelFrequency
    | ChannelPeriod
    | EnableRxExt
    | LibConfigMsg
    | ChannelOpen
    | ChannelOpenRxScan
    | ChannelClose
    | ChannelUnassign
    | AcknowledgedData
    | OtherMessage(id: int)

  /** The code byte of a channel-event frame. */
  datatype EventCode =
    | ChannelClosed
    | RxFailGoToSearch
    | TransferTxCompleted
    | TransferTxFailed
    | RxFail
    | InvalidScanTxChannel
    | TransferInProgress
    | OtherCode(code: int)

  /** The `(msg, code)` pair the router hands to a status handler. */
  datatype Status = Status(msg: MessageId, code: EventCode)

  /** Notifications the sensor emits to its listeners. */
  datatype Note = Attached | Detached | EventData(message: MessageId, code: EventCode)

  /** The channel a scanning sensor always uses. */
  const ScanChannel := 0

  /** The library-configuration flags both handshakes request. */
  const ExtendedFlags := 0xe0

  /**
   * The installed status handler. The closures of the source capture their
   * configuration and nothing else, so a handler is that configuration.
   */
  datatype Handler =
    | NoHandler
    | AttachH(channel: int, deviceID: int, deviceType: int, transmissionType: int,
              timeout: int, period: int, frequency: int)
    | ScanH(frequency: int)

  /** The channel a handler was built for. */
  function HandlerChannel(h: Handler): int
    requires !h.NoHandler?
  {
    if h.AttachH? then h.channel else ScanChannel
  }

  /** What a handler does with one status, and whether it reports it handled. */
  datatype Action =
    | Write(cmd: Cmd)          // write a command; handled
    | Complete(success: bool)  // pop the queue head, call its callback, write the next head; handled
    | AnnounceAttached         // schedule "attached"; handled
    | Unassign                 // forget channel and handler, schedule "detached"; handled
    | Consume                  // handled, nothing else
    | Unhandled

  predicate Handled(a: Action) { !a.Unhandled? }

  /** Event codes that end an acknowledged or broadcast transfer. */
  predicate IsCompletion(code: EventCode)
  {
    code == TransferTxCompleted || code == TransferTxFailed || code == RxFail || code == InvalidScanTxChannel
  }

  /** Event codes after which the channel has to be unassigned. */
  predicate IsTeardown(code: EventCode)
  {
    code == ChannelClosed || code == RxFailGoToSearch
  }

  /** The `MESSAGE_RF` branch, written identically in both handlers. */
  function OnRfEvent(channel: int, code: EventCode): Action
  {
    if IsTeardown(code) then Write(UnassignChannel(channel))
    else if IsCompletion(code) then Complete(code == TransferTxCompleted)
    else Unhandled
  }

  /** The handler `attach` installs. */
  function OnAttachStatus(h: Handler, s: Status): Action
    requires h.AttachH?
  {
    match s.msg
    case MessageRF => OnRfEvent(h.channel, s.code)
    case ChannelAssign => Write(SetDevice(h.channel, h.deviceID, h.deviceType, h.transmissionType))
    case ChannelId => Write(SearchChannel(h.channel, h.timeout))
    case ChannelSearchTimeout => Write(SetFrequency(h.channel, h.frequency))
    case ChannelFrequency => Write(SetPeriod(h.channel, h.period))
    case ChannelPeriod => Write(LibConfig(h.channel, ExtendedFlags))
    case LibConfigMsg => Write(OpenChannel(h.channel))
    case ChannelOpen => AnnounceAttached
    case ChannelClose => Consume
    case ChannelUnassign => Unassign
    case AcknowledgedData => if s.code == TransferInProgress then Consume else Unhandled
    case _ => Unhandled
  }

  /** The handler `scan` installs: channel 0 and the wildcard device 0/0/0. */
  function OnScanStatus(frequency: int, s: Status): Action
  {
    match s.msg
    case MessageRF => OnRfEvent(ScanChannel, s.code)
    case ChannelAssign => Write(SetDevice(ScanChannel, 0, 0, 0))
    case ChannelId => Write(SetFrequency(ScanChannel, frequency))
    case ChannelFrequency => Write(SetRxExt)
    case EnableRxExt => Write(LibConfig(ScanChannel, ExtendedFlags))
    case LibConfigMsg => Write(OpenRxScan)
    case ChannelOpenRxScan => AnnounceAttached
    case ChannelClose => Consume
    case ChannelUnassign => Unassign
    case AcknowledgedData => if s.code == TransferInProgress then Consume else Unhandled
    case _ => Unhandled
  }

  /**
   * `this.statusCbk && this.statusCbk(status)`: the action taken for one
   * status, which depends on the installed handler and the status alone.
   */
  function Dispatch(h: Handler, s: Status): (a: Action)
    // without a handler nothing is handled
    ensures h.NoHandler? ==> a == Unhandled
    // completion codes are handled the same way by both handlers, and only they release the queue
    ensures !h.NoHandler? && s.msg == MessageRF && IsCompletion(s.code) ==>
              a == Complete(s.code == TransferTxCompleted)
    ensures a.Complete? <==> !h.NoHandler? && s.msg == MessageRF && IsCompletion(s.code)
    // a closed channel or a lost device is always unassigned
    ensures !h.NoHandler? && s.msg == MessageRF && IsTeardown(s.code) ==>
              a == Write(UnassignChannel(HandlerChannel(h)))
    // only the unassign confirmation tears the binding down
    ensures a.Unassign? <==> !h.NoHandler? && s.msg == ChannelUnassign
    // only the final confirmation of each handshake announces the channel
    ensures a.AnnounceAttached? <==>
              (h.AttachH? && s.msg == ChannelOpen) || (h.ScanH? && s.msg == ChannelOpenRxScan)
    // an acknowledged-data event is consumed iff its transfer is still in progress
    // with no other effect
    ensures !h.NoHandler? && s.msg == AcknowledgedData ==>
              a == (if s.code == TransferInProgress then Consume else Unhandled)
    // every command a handler writes addresses the handler's own channel, if any
    ensures a.Write? ==> Addressed(a.cmd) == None || Addressed(a.cmd) == Some(HandlerChannel(h))
  {
    match h
    case NoHandler => Unhandled
    case AttachH(_, _, _, _, _, _, _) => OnAttachStatus(h, s)
    case ScanH(frequency) => OnScanStatus(frequency, s)
  }

  /** The actions a handler takes, in order, for a sequence of statuses. */
  function Replay(h: Handler, ss: seq<Status>): (r: seq<Action>)
    ensures |r| == |ss|
    ensures forall i :: 0 <= i < |ss| ==> r[i] == Dispatch(h, ss[i])
  {
    if ss == [] then [] else [Dispatch(h, ss[0])] + Replay(h, ss[1..])
  }

  /**
   * The handlers keep no phase: what a handler does with later statuses does
   * not depend on the statuses it has already seen.
   */
  lemma {:induction false} ReplayHasNoPhase(h: Handler, earlier: seq<Status>, later: seq<Status>)
    ensures Replay(h, earlier + later) == Replay(h, earlier) + Replay(h, later)
  {
    if earlier == [] {
      assert earlier + later == later;
    } else {
      var rest := earlier[1..];
      assert (earlier + later)[0] == earlier[0];
      assert (earlier + later)[1..] == rest + later;
      ReplayHasNoPhase(h, rest, later);
      calc {
        Replay(h, earlier + later);
        [Dispatch(h, earlier[0])] + Replay(h, rest + later);
        [Dispatch(h, earlier[0])] + (Replay(h, rest) + Replay(h, later));
        Replay(h, earlier) + Replay(h, later);
      }
    }
  }

  /** The confirmations of a directed handshake, in the order the device sends them. */
  function AttachConfirmations(code: EventCode): seq<Status>
  {
    [Status(ChannelAssign, code), Status(ChannelId, code), Status(ChannelSearchTimeout, code),
     Status(ChannelFrequency, code), Status(ChannelPeriod, code), Status(LibConfigMsg, code),
     Status(ChannelOpen, code)]
  }

  /** The confirmations of a scan handshake, in the order the device sends them. */
  function ScanConfirmations(code: EventCode): seq<Status>
  {
    [Status(ChannelAssign, code), Status(ChannelId, code), Status(ChannelFrequency, code),
     Status(EnableRxExt, code), Status(LibConfigMsg, code), Status(ChannelOpenRxScan, code)]
  }

  /** The directed handshake: each confirmation writes the next setup command, the last one announces. */
  lemma AttachHandshake(h: Handler, code: EventCode)
    requires h.AttachH?
    ensures Replay(h, AttachConfirmations(code)) ==
      [Write(SetDevice(h.channel, h.deviceID, h.deviceType, h.transmissionType)),
       Write(SearchChannel(h.channel, h.timeout)),
       Write(SetFrequency(h.channel, h.frequency)),
       Write(SetPeriod(h.channel, h.period)),
       Write(LibConfig(h.channel, ExtendedFlags)),
       Write(OpenChannel(h.channel)),
       AnnounceAttached]
  {
  }

  /** The scan handshake on channel 0 with the wildcard device. */
  lemma ScanHandshake(frequency: int, code: EventCode)
    ensures Replay(ScanH(frequency), ScanConfirmations(code)) ==
      [Write(SetDevice(ScanChannel, 0, 0, 0)),
       Write(SetFrequency(ScanChannel, frequency)),
       Write(SetRxExt),
       Write(LibConfig(ScanChannel, ExtendedFlags)),
       Write(OpenRxScan),
       AnnounceAttached]
  {
  }

  /** The scan handler has no search-timeout or period step. */
  lemma ScanSkipsTimeoutAndPeriod(frequency: int, code: EventCode)
    ensures Dispatch(ScanH(frequency), Status(ChannelSearchTimeout, code)) == Unhandled
    ensures Dispatch(ScanH(frequency), Status(ChannelPeriod, code)) == Unhandled
  {
  }

  /**
   * Teardown and the remaining cases, shared by both handlers: a close
   * confirmation is absorbed, an unassign confirmation unbinds, any status
   * outside the tables is reported unhandled.
   */
  lemma SharedCases(h: Handler, s: Status)
    requires !h.NoHandler?
    ensures s.msg == ChannelClose ==> Dispatch(h, s) == Consume
    ensures s.msg == ChannelUnassign ==> Dispatch(h, s) == Unassign
    ensures s.msg.OtherMessage? ==> Dispatch(h, s) == Unhandled
    ensures s.msg == MessageRF && !IsTeardown(s.code) && !IsCompletion(s.code) ==> Dispatch(h, s) == Unhandled
    // each handler leaves the other handshake's confirmations unhandled
    ensures h.AttachH? && (s.msg == EnableRxExt || s.msg == ChannelOpenRxScan) ==> Dispatch(h, s) == Unhandled
    ensures h.ScanH? && s.msg == ChannelOpen ==> Dispatch(h, s) == Unhandled
  {
  }
}
