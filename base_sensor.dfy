/**
 * The per-channel protocol engine of a sensor (src/sensors/BaseSensor.ts):
 * the send queue, the binding fields that `attach`, `scan` and the unassign
 * confirmation set and clear, and the router for inbound frames.
 *
 * The USB stick is not modelled: its answers (`attach`, `detach`, `canScan`,
 * `isScanning`) are boolean parameters, and what is written to it, emitted to
 * listeners, passed to send callbacks or to the data decoder is appended to
 * a log field.
 */
module Sensors {

  import opened Wrappers
  import opened Channel

  /** A send callback, identified by the caller. */
  type CallbackId = int

  /** One entry of `msgQueue`. */
  datatype Entry = Entry(msg: Cmd, cbk: Option<CallbackId>)

  /** The exceptions `scan`, `attach` and `detach` throw. */
  datatype Error = AlreadyAttached | StickCannotScan | CannotAttach | ErrorDetaching

  /** An inbound frame, split by its message-type byte. */
  datatype Frame =
    | EventFrame(channel: int, status: Status)     // MESSAGE_CHANNEL_EVENT
    | DataFrame(channel: int, bytes: seq<int>)     // any other message type

  /** The messages of a sequence of queue entries. */
  function Msgs(es: seq<Entry>): seq<Cmd>
  {
    seq(|es|, i requires 0 <= i < |es| => es[i].msg)
  }

  /** What calling an entry's callback, if it has one, adds to the callback log. */
  function CallbackCall(e: Entry, success: bool): seq<(CallbackId, bool)>
  {
    if e.cbk.Some? then [(e.cbk.value, success)] else []
  }

  /** The write that releases the head of a queue, if there is one. */
  function HeadWrite(q: seq<Entry>): seq<Cmd>
  {
    if q == [] then [] else [q[0].msg]
  }

  /**
   * The completion branch as written, when the callback of the completed
   * entry sends `resend` (a retry, say): the head is removed, the callback's
   * `send` runs, and then the new head is written.
   */
  function CompleteAndResendAsWritten(q: seq<Entry>, resend: Entry): (r: (seq<Entry>, seq<Cmd>))
    requires q != []
    // the resent message is written twice when the completed entry was alone,
    // otherwise only the entry that was next is written
    ensures r.1 == if |q| == 1 then [resend.msg, resend.msg] else [q[1].msg]
  {
    var afterCallback := q[1..] + [resend];
    var sendWrites := if |afterCallback| == 1 then [resend.msg] else [];
    (afterCallback, sendWrites + HeadWrite(afterCallback))
  }

  /**
   * When the completed entry was the only one, a message its callback sends
   * is written twice: once by `send`, once as the new head.
   */
  lemma ResendWrittenTwice(done: Entry, resend: Entry)
    ensures CompleteAndResendAsWritten([done], resend).1 == [resend.msg, resend.msg]
  {
  }

  /**
   * The completion branch with the new head written only if it was queued
   * before the callback ran: whatever the callback sends, exactly one write
   * happens, of the new head.
   */
  function CompleteAndResend(q: seq<Entry>, resend: Entry): (r: (seq<Entry>, seq<Cmd>))
    requires q != []
    ensures r.0 == q[1..] + [resend]
    ensures r.1 == HeadWrite(r.0)
  {
    var rest := q[1..];
    var afterCallback := rest + [resend];
    var sendWrites := if |afterCallback| == 1 then [resend.msg] else [];
    (afterCallback, sendWrites + if rest != [] then [rest[0].msg] else [])
  }

  class BaseSensor {
    var channel: Option<int>
    var deviceID: Option<int>
    var transmissionType: Option<int>
    var msgQueue: seq<Entry>
    var statusCbk: Handler
    var hasDecoder: bool                     // whether `decodeDataCbk` is set

    var writes: seq<Cmd>                     // every `stick.write`, in order
    var notes: seq<Note>                     // every `emit`, in order
    var callbacks: seq<(CallbackId, bool)>   // every send callback call, in order
    var decoded: seq<seq<int>>               // every frame passed to `decodeDataCbk`

    // History of the queue: everything ever queued, how many entries have
    // completed, and the writes the queue itself has issued.
    ghost var enqueued: seq<Entry>
    ghost var completed: nat
    ghost var queueWrites: seq<Cmd>

    /** The number of queued entries that have been written. */
    ghost function Issued(): nat
      reads this
    {
      completed + if msgQueue == [] then 0 else 1
    }

    /**
     * The queue is first in, first out with one write in flight: the queue
     * holds exactly the entries not yet completed, in the order they were
     * sent, and it has written exactly the completed ones and its head, in
     * that order, each once. A handler is installed exactly when a channel is
     * bound, and it was built for that channel.
     */
    ghost predicate Valid()
      reads this
    {
      && completed <= |enqueued|
      && msgQueue == enqueued[completed..]
      && queueWrites == Msgs(enqueued[..Issued()])
      && (channel.None? <==> statusCbk.NoHandler?)
      && (!statusCbk.NoHandler? ==> channel == Some(HandlerChannel(statusCbk)))
    }

    constructor (hasDecoder: bool)
      ensures Valid()
      ensures channel == None && deviceID == None && transmissionType == None
      ensures msgQueue == [] && statusCbk == NoHandler && this.hasDecoder == hasDecoder
      ensures writes == [] && notes == [] && callbacks == [] && decoded == []
    {
      channel, deviceID, transmissionType := None, None, None;
      msgQueue, statusCbk := [], NoHandler;
      this.hasDecoder := hasDecoder;
      writes, notes, callbacks, decoded := [], [], [], [];
      enqueued, completed, queueWrites := [], 0, [];
    }

    /** The queue history is left as it was. */
    twostate predicate HistoryUnchanged()
      reads this
    {
      unchanged(this`enqueued, this`completed, this`queueWrites)
    }

    /**
     * The queue history grows by what the queue did in this step: `sent`
     * entries appended, `done` entries completed, and every command this step
     * wrote to the stick recorded as written by the queue.
     */
    twostate predicate QueueStep(sent: seq<Entry>, done: nat)
      reads this
    {
      && old(|writes|) <= |writes|
      && enqueued == old(enqueued) + sent
      && completed == old(completed) + done
      && queueWrites == old(queueWrites) + writes[old(|writes|)..]
    }

    /** Fields that only `attach`, `scan` and the unassign confirmation change. */
    twostate predicate BindingUnchanged()
      reads this
    {
      unchanged(this`channel, this`deviceID, this`transmissionType, this`statusCbk, this`hasDecoder)
    }

    /** `send`: queue a message and write it at once if nothing else is in flight. */
    method Send(msg: Cmd, cbk: Option<CallbackId>)
      requires Valid()
      modifies this
      ensures Valid()
      ensures msgQueue == old(msgQueue) + [Entry(msg, cbk)]
      ensures writes == old(writes) + if old(msgQueue) == [] then [msg] else []
      ensures QueueStep([Entry(msg, cbk)], 0)
      ensures BindingUnchanged() && unchanged(this`notes, this`callbacks, this`decoded)
    {
      msgQueue := msgQueue + [Entry(msg, cbk)];
      enqueued := enqueued + [Entry(msg, cbk)];
      if |msgQueue| == 1 {
        writes := writes + [msg];
        queueWrites := queueWrites + [msg];
        assert enqueued[..Issued()] == old(enqueued[..Issued()]) + [Entry(msg, cbk)];
      } else {
        assert enqueued[..Issued()] == old(enqueued[..Issued()]);
      }
    }

    /**
     * A completion event: remove the head, call its callback with the success
     * flag and write the new head. On an empty queue nothing happens.
     */
    method CompleteHead(success: bool)
      requires Valid()
      modifies this
      ensures Valid()
      ensures old(msgQueue) == [] ==> unchanged(this)
      ensures old(msgQueue) != [] ==>
        && msgQueue == old(msgQueue)[1..]
        && callbacks == old(callbacks) + CallbackCall(old(msgQueue)[0], success)
        && writes == old(writes) + HeadWrite(msgQueue)
      ensures QueueStep([], if old(msgQueue) == [] then 0 else 1)
      ensures BindingUnchanged() && unchanged(this`notes, this`decoded)
    {
      if msgQueue != [] {
        var mc := msgQueue[0];
        msgQueue := msgQueue[1..];
        completed := completed + 1;
        if mc.cbk.Some? {
          callbacks := callbacks + [(mc.cbk.value, success)];
        }
        if |msgQueue| > 0 {
          writes := writes + [msgQueue[0].msg];
          queueWrites := queueWrites + [msgQueue[0].msg];
          assert enqueued[..Issued()] == old(enqueued[..Issued()]) + [msgQueue[0]];
        } else {
          assert Issued() == old(Issued());
        }
      }
    }

    /** The effect of one handler action on the sensor. */
    twostate predicate Performed(a: Action)
      reads this
    {
      match a
      case Write(cmd) =>
        && writes == old(writes) + [cmd] && HistoryUnchanged()
        && BindingUnchanged() && unchanged(this`msgQueue, this`notes, this`callbacks, this`decoded)
      case Complete(success) =>
        && (old(msgQueue) == [] ==> unchanged(this`msgQueue, this`writes, this`callbacks))
        && (old(msgQueue) != [] ==>
              && msgQueue == old(msgQueue)[1..]
              && callbacks == old(callbacks) + CallbackCall(old(msgQueue)[0], success)
              && writes == old(writes) + HeadWrite(msgQueue))
        && QueueStep([], if old(msgQueue) == [] then 0 else 1)
        && BindingUnchanged() && unchanged(this`notes, this`decoded)
      case AnnounceAttached =>
        && notes == old(notes) + [Attached] && HistoryUnchanged()
        && BindingUnchanged() && unchanged(this`msgQueue, this`writes, this`callbacks, this`decoded)
      case Unassign =>
        && channel == None && statusCbk == NoHandler && notes == old(notes) + [Detached]
        && HistoryUnchanged()
        && unchanged(this`deviceID, this`transmissionType, this`hasDecoder)
        && unchanged(this`msgQueue, this`writes, this`callbacks, this`decoded)
      case Consume =>
        && HistoryUnchanged() && BindingUnchanged() && unchanged(this`msgQueue, this`writes, this`notes, this`callbacks, this`decoded)
      case Unhandled =>
        && HistoryUnchanged() && BindingUnchanged() && unchanged(this`msgQueue, this`writes, this`notes, this`callbacks, this`decoded)
    }

    /** `this.statusCbk && this.statusCbk(status)`: run the installed handler. */
    method OnStatus(s: Status) returns (handled: bool)
      requires Valid()
      modifies this
      ensures Valid()
      ensures handled == Handled(Dispatch(old(statusCbk), s))
      ensures Performed(Dispatch(old(statusCbk), s))
    {
      var a := Dispatch(statusCbk, s);
      match a
      case Write(cmd) =>
        writes := writes + [cmd];
        handled := true;
      case Complete(success) =>
        CompleteHead(success);
        handled := true;
      case AnnounceAttached =>
        notes := notes + [Attached];
        handled := true;
      case Unassign =>
        statusCbk := NoHandler;
        channel := None;
        notes := notes + [Detached];
        handled := true;
      case Consume =>
        handled := true;
      case Unhandled =>
        handled := false;
    }

    /** `scan`: bind channel 0 to every device in range. */
    method Scan(channelType: string, frequency: int, canScan: bool, isScanning: bool, stickAttaches: bool)
      returns (r: Outcome<Error>)
      requires Valid()
      modifies this
      ensures Valid()
      ensures old(channel).Some? ==> r == Fail(AlreadyAttached) && unchanged(this)
      ensures old(channel).None? && !canScan ==> r == Fail(StickCannotScan) && unchanged(this)
      ensures old(channel).None? && canScan && !isScanning && !stickAttaches ==>
                r == Fail(CannotAttach) && unchanged(this)
      ensures old(channel).None? && canScan && (isScanning || stickAttaches) ==>
        && r == Pass
        && channel == Some(ScanChannel) && deviceID == Some(0) && transmissionType == Some(0)
        && statusCbk == ScanH(frequency)
        // a stick that is already scanning is joined without an assign
        && notes == old(notes) + (if isScanning then [Attached] else [])
        && writes == old(writes) + (if isScanning then [] else [AssignChannel(ScanChannel, channelType)])
      ensures unchanged(this`msgQueue, this`callbacks, this`decoded, this`hasDecoder) && HistoryUnchanged()
    {
      if channel.Some? {
        return Fail(AlreadyAttached);
      }
      if !canScan {
        return Fail(StickCannotScan);
      }
      if isScanning {
        channel := Some(ScanChannel);
        deviceID := Some(0);
        transmissionType := Some(0);
        statusCbk := ScanH(frequency);
        notes := notes + [Attached];
      } else if stickAttaches {
        channel := Some(ScanChannel);
        deviceID := Some(0);
        transmissionType := Some(0);
        statusCbk := ScanH(frequency);
        writes := writes + [AssignChannel(ScanChannel, channelType)];
      } else {
        return Fail(CannotAttach);
      }
      r := Pass;
    }

    /** `attach`: bind channel `ch` to one known device and start its handshake. */
    method Attach(ch: int, channelType: string, devID: int, devType: int, transType: int,
                  timeout: int, period: int, frequency: int, stickAttaches: bool)
      returns (r: Outcome<Error>)
      requires Valid()
      modifies this
      ensures Valid()
      ensures old(channel).Some? ==> r == Fail(AlreadyAttached) && unchanged(this)
      ensures old(channel).None? && !stickAttaches ==> r == Fail(CannotAttach) && unchanged(this)
      ensures old(channel).None? && stickAttaches ==>
        && r == Pass
        && channel == Some(ch) && deviceID == Some(devID) && transmissionType == Some(transType)
        && statusCbk == AttachH(ch, devID, devType, transType, timeout, period, frequency)
        && writes == old(writes) + [AssignChannel(ch, channelType)]
        && notes == old(notes)
      ensures unchanged(this`msgQueue, this`callbacks, this`decoded, this`hasDecoder) && HistoryUnchanged()
    {
      if channel.Some? {
        return Fail(AlreadyAttached);
      }
      if !stickAttaches {
        return Fail(CannotAttach);
      }
      channel := Some(ch);
      deviceID := Some(devID);
      transmissionType := Some(transType);
      statusCbk := AttachH(ch, devID, devType, transType, timeout, period, frequency);
      writes := writes + [AssignChannel(ch, channelType)];
      r := Pass;
    }

    /**
     * `detach`: ask the device to close the channel. The binding stays until
     * the unassign confirmation arrives.
     */
    method Detach(stickDetaches: bool) returns (r: Outcome<Error>)
      requires Valid()
      modifies this
      ensures Valid()
      ensures old(channel).None? ==> r == Pass && unchanged(this)
      ensures old(channel).Some? ==>
        && writes == old(writes) + [CloseChannel(old(channel).value)]
        && r == (if stickDetaches then Pass else Fail(ErrorDetaching))
      ensures BindingUnchanged() && HistoryUnchanged()
      ensures unchanged(this`msgQueue, this`notes, this`callbacks, this`decoded)
    {
      if channel.None? {
        return Pass;
      }
      writes := writes + [CloseChannel(channel.value)];
      if !stickDetaches {
        return Fail(ErrorDetaching);
      }
      r := Pass;
    }

    /**
     * `handleEventMessages`: frames for another channel, or any frame while
     * unbound, are dropped; channel events go to the handler and are re-emitted
     * as `eventData` when it does not handle them; other frames go to the
     * data decoder when one is set.
     */
    method HandleEventMessages(f: Frame)
      requires Valid()
      modifies this
      ensures Valid()
      ensures old(channel) != Some(f.channel) ==> unchanged(this)
      ensures old(channel) == Some(f.channel) && f.DataFrame? ==>
        && decoded == old(decoded) + (if hasDecoder then [f.bytes] else [])
        && HistoryUnchanged() && BindingUnchanged() && unchanged(this`msgQueue, this`writes, this`notes, this`callbacks)
      ensures old(channel) == Some(f.channel) && f.EventFrame? && Handled(Dispatch(old(statusCbk), f.status)) ==>
        Performed(Dispatch(old(statusCbk), f.status))
      ensures old(channel) == Some(f.channel) && f.EventFrame? && !Handled(Dispatch(old(statusCbk), f.status)) ==>
        && notes == old(notes) + [EventData(f.status.msg, f.status.code)]
        && HistoryUnchanged() && BindingUnchanged() && unchanged(this`msgQueue, this`writes, this`callbacks, this`decoded)
    {
      if channel == Some(f.channel) {
        match f
        case EventFrame(_, status) =>
          var handled := OnStatus(status);
          if !handled {
            notes := notes + [EventData(status.msg, status.code)];
          }
        case DataFrame(_, bytes) =>
          if hasDecoder {
            decoded := decoded + [bytes];
          }
      }
    }
  }

  /** A fresh sensor bound by `attach` to one device, before any confirmation. */
  method NewAttached(ch: int, channelType: string, devID: int, devType: int, transType: int,
                     timeout: int, period: int, frequency: int)
    returns (sensor: BaseSensor)
    ensures fresh(sensor) && sensor.Valid()
    ensures sensor.channel == Some(ch)
    ensures sensor.statusCbk == AttachH(ch, devID, devType, transType, timeout, period, frequency)
    ensures sensor.writes == [AssignChannel(ch, channelType)] && sensor.notes == []
    ensures sensor.msgQueue == [] && sensor.callbacks == []
  {
    sensor := new BaseSensor(true);
    var r := sensor.Attach(ch, channelType, devID, devType, transType, timeout, period, frequency, true);
  }

  /** A fresh sensor bound by `scan` on a stick that was not scanning, before any confirmation. */
  method NewScanner(channelType: string, frequency: int) returns (sensor: BaseSensor)
    ensures fresh(sensor) && sensor.Valid()
    ensures sensor.channel == Some(ScanChannel) && sensor.statusCbk == ScanH(frequency)
    ensures sensor.writes == [AssignChannel(ScanChannel, channelType)] && sensor.notes == []
  {
    sensor := new BaseSensor(true);
    var r := sensor.Scan(channelType, frequency, true, false, true);
  }

  /** Deliver one completion event while the queue holds something. */
  method ConfirmTransfer(sensor: BaseSensor, ch: int, code: EventCode)
    requires sensor.Valid() && sensor.channel == Some(ch) && !sensor.statusCbk.NoHandler?
    requires IsCompletion(code) && sensor.msgQueue != []
    modifies sensor
    ensures sensor.Valid()
    ensures sensor.channel == old(sensor.channel) && sensor.statusCbk == old(sensor.statusCbk)
    ensures sensor.msgQueue == old(sensor.msgQueue)[1..]
    ensures sensor.callbacks == old(sensor.callbacks) + CallbackCall(old(sensor.msgQueue)[0], code == TransferTxCompleted)
    ensures sensor.writes == old(sensor.writes) + HeadWrite(sensor.msgQueue)
  {
    sensor.HandleEventMessages(EventFrame(ch, Status(MessageRF, code)));
  }

  /** Deliver one setup confirmation that the installed handler answers with `next`. */
  method Confirm(sensor: BaseSensor, ch: int, s: Status, next: Cmd)
    requires sensor.Valid() && sensor.channel == Some(ch)
    requires Dispatch(sensor.statusCbk, s) == Write(next)
    modifies sensor
    ensures sensor.Valid()
    ensures sensor.writes == old(sensor.writes) + [next]
    ensures sensor.channel == old(sensor.channel) && sensor.statusCbk == old(sensor.statusCbk)
    ensures sensor.notes == old(sensor.notes)
  {
    sensor.HandleEventMessages(EventFrame(ch, s));
  }

  /** Deliver the confirmation that ends a handshake. */
  method ConfirmOpen(sensor: BaseSensor, ch: int, s: Status)
    requires sensor.Valid() && sensor.channel == Some(ch)
    requires Dispatch(sensor.statusCbk, s) == AnnounceAttached
    modifies sensor
    ensures sensor.Valid()
    ensures sensor.writes == old(sensor.writes)
    ensures sensor.channel == old(sensor.channel)
    ensures sensor.notes == old(sensor.notes) + [Attached]
  {
    sensor.HandleEventMessages(EventFrame(ch, s));
  }

  /** A new directed sensor after the first three confirmations of its handshake. */
  method AttachFirstSteps(ch: int, channelType: string, devID: int, devType: int, transType: int,
                          timeout: int, period: int, frequency: int, code: EventCode)
    returns (sensor: BaseSensor)
    ensures fresh(sensor) && sensor.Valid()
    ensures sensor.channel == Some(ch)
    ensures sensor.statusCbk == AttachH(ch, devID, devType, transType, timeout, period, frequency)
    ensures sensor.writes == [AssignChannel(ch, channelType), SetDevice(ch, devID, devType, transType),
                              SearchChannel(ch, timeout), SetFrequency(ch, frequency)]
    ensures sensor.notes == []
  {
    sensor := NewAttached(ch, channelType, devID, devType, transType, timeout, period, frequency);
    Confirm(sensor, ch, Status(ChannelAssign, code), SetDevice(ch, devID, devType, transType));
    Confirm(sensor, ch, Status(ChannelId, code), SearchChannel(ch, timeout));
    Confirm(sensor, ch, Status(ChannelSearchTimeout, code), SetFrequency(ch, frequency));
  }

  /**
   * A directed sensor attaches and the device confirms each setup step in
   * order: the assign command and the six setup commands are written, in
   * order, and one `attached` is scheduled.
   */
  method DirectedHandshake(ch: int, channelType: string, devID: int, devType: int, transType: int,
                           timeout: int, period: int, frequency: int, code: EventCode)
    returns (written: seq<Cmd>, emitted: seq<Note>, bound: Option<int>)
    ensures written == [AssignChannel(ch, channelType), SetDevice(ch, devID, devType, transType),
                        SearchChannel(ch, timeout), SetFrequency(ch, frequency), SetPeriod(ch, period),
                        LibConfig(ch, ExtendedFlags), OpenChannel(ch)]
    ensures emitted == [Attached]
    ensures bound == Some(ch)
  {
    var sensor := AttachFirstSteps(ch, channelType, devID, devType, transType, timeout, period, frequency, code);
    Confirm(sensor, ch, Status(ChannelFrequency, code), SetPeriod(ch, period));
    Confirm(sensor, ch, Status(ChannelPeriod, code), LibConfig(ch, ExtendedFlags));
    Confirm(sensor, ch, Status(LibConfigMsg, code), OpenChannel(ch));
    ConfirmOpen(sensor, ch, Status(ChannelOpen, code));
    written, emitted, bound := sensor.writes, sensor.notes, sensor.channel;
  }

  /**
   * The handlers keep no phase: an OPEN confirmation that arrives before any
   * setup step was confirmed still announces the channel as attached.
   */
  method OpenBeforeSetup(ch: int, channelType: string, code: EventCode)
    returns (written: seq<Cmd>, emitted: seq<Note>, bound: Option<int>)
    ensures written == [AssignChannel(ch, channelType)]
    ensures emitted == [Attached]
    ensures bound == Some(ch)
  {
    var sensor := NewAttached(ch, channelType, 1, 2, 3, 4, 5, 6);
    ConfirmOpen(sensor, ch, Status(ChannelOpen, code));
    written, emitted, bound := sensor.writes, sensor.notes, sensor.channel;
  }

  /** A new scanner after the first three scan confirmations. */
  method ScanFirstSteps(channelType: string, frequency: int, code: EventCode) returns (sensor: BaseSensor)
    ensures fresh(sensor) && sensor.Valid()
    ensures sensor.channel == Some(ScanChannel) && sensor.statusCbk == ScanH(frequency)
    ensures sensor.writes == [AssignChannel(ScanChannel, channelType), SetDevice(ScanChannel, 0, 0, 0),
                              SetFrequency(ScanChannel, frequency), SetRxExt]
    ensures sensor.notes == []
  {
    sensor := NewScanner(channelType, frequency);
    Confirm(sensor, ScanChannel, Status(ChannelAssign, code), SetDevice(ScanChannel, 0, 0, 0));
    Confirm(sensor, ScanChannel, Status(ChannelId, code), SetFrequency(ScanChannel, frequency));
    Confirm(sensor, ScanChannel, Status(ChannelFrequency, code), SetRxExt);
  }

  /**
   * A scanner on a stick that is not yet scanning: the assign command and the
   * five scan setup commands on channel 0, then one `attached`.
   */
  method ScanHandshakeRun(channelType: string, frequency: int, code: EventCode)
    returns (written: seq<Cmd>, emitted: seq<Note>, bound: Option<int>)
    ensures written == [AssignChannel(ScanChannel, channelType), SetDevice(ScanChannel, 0, 0, 0),
                        SetFrequency(ScanChannel, frequency), SetRxExt,
                        LibConfig(ScanChannel, ExtendedFlags), OpenRxScan]
    ensures emitted == [Attached]
    ensures bound == Some(ScanChannel)
  {
    var sensor := ScanFirstSteps(channelType, frequency, code);
    Confirm(sensor, ScanChannel, Status(EnableRxExt, code), LibConfig(ScanChannel, ExtendedFlags));
    Confirm(sensor, ScanChannel, Status(LibConfigMsg, code), OpenRxScan);
    ConfirmOpen(sensor, ScanChannel, Status(ChannelOpenRxScan, code));
    written, emitted, bound := sensor.writes, sensor.notes, sensor.channel;
  }

  /** A fresh attached sensor after three back-to-back sends: only the first is written. */
  method NewWithThreeQueued(ch: int, channelType: string, a: Cmd, b: Cmd, c: Cmd,
                            ka: CallbackId, kb: CallbackId, kc: CallbackId)
    returns (sensor: BaseSensor)
    ensures fresh(sensor) && sensor.Valid()
    ensures sensor.channel == Some(ch) && !sensor.statusCbk.NoHandler?
    ensures sensor.msgQueue == [Entry(a, Some(ka)), Entry(b, Some(kb)), Entry(c, Some(kc))]
    ensures sensor.writes == [AssignChannel(ch, channelType), a] && sensor.callbacks == []
  {
    sensor := NewAttached(ch, channelType, 1, 2, 3, 4, 5, 6);
    sensor.Send(a, Some(ka));
    sensor.Send(b, Some(kb));
    sensor.Send(c, Some(kc));
  }

  /**
   * Three messages sent back to back go out one at a time, in the order they
   * were sent, each released by the completion of the one before; each
   * callback learns whether its own transfer succeeded.
   */
  method QueueInOrder(ch: int, channelType: string, a: Cmd, b: Cmd, c: Cmd,
                      ka: CallbackId, kb: CallbackId, kc: CallbackId)
    returns (written: seq<Cmd>, results: seq<(CallbackId, bool)>)
    ensures written == [AssignChannel(ch, channelType), a, b, c]
    ensures results == [(ka, true), (kb, false), (kc, false)]
  {
    var sensor := NewWithThreeQueued(ch, channelType, a, b, c, ka, kb, kc);
    ConfirmTransfer(sensor, ch, TransferTxCompleted);
    assert sensor.msgQueue == [Entry(b, Some(kb)), Entry(c, Some(kc))];
    ConfirmTransfer(sensor, ch, TransferTxFailed);
    assert sensor.msgQueue == [Entry(c, Some(kc))];
    ConfirmTransfer(sensor, ch, RxFail);
    written, results := sensor.writes, sensor.callbacks;
  }

  /**
   * The device drops the channel: the sensor asks for an unassign, the
   * unassign confirmation unbinds it and schedules `detached`, and the
   * sensor can then be attached again.
   */
  method LostChannelThenReattach(ch: int, channelType: string, code: EventCode)
    returns (written: seq<Cmd>, emitted: seq<Note>, again: Outcome<Error>)
    ensures written == [AssignChannel(ch, channelType), UnassignChannel(ch), AssignChannel(ch, channelType)]
    ensures emitted == [Detached]
    ensures again == Pass
  {
    var sensor := new BaseSensor(true);
    var r := sensor.Attach(ch, channelType, 1, 2, 3, 4, 5, 6, true);
    sensor.HandleEventMessages(EventFrame(ch, Status(MessageRF, RxFailGoToSearch)));
    sensor.HandleEventMessages(EventFrame(ch, Status(ChannelUnassign, code)));
    again := sensor.Attach(ch, channelType, 1, 2, 3, 4, 5, 6, true);
    written, emitted := sensor.writes, sensor.notes;
  }

  /**
   * `detach` only writes the close command; the sensor stays bound (a second
   * attach is refused) until the device confirms the close and the unassign.
   */
  method DetachWaitsForUnassign(ch: int, channelType: string, code: EventCode)
    returns (written: seq<Cmd>, refused: Outcome<Error>, emitted: seq<Note>, bound: Option<int>)
    ensures written == [AssignChannel(ch, channelType), CloseChannel(ch)]
    ensures refused == Fail(AlreadyAttached)
    ensures emitted == [Detached]
    ensures bound == None
  {
    var sensor := new BaseSensor(true);
    var r := sensor.Attach(ch, channelType, 1, 2, 3, 4, 5, 6, true);
    r := sensor.Detach(true);
    refused := sensor.Attach(ch, channelType, 1, 2, 3, 4, 5, 6, true);
    sensor.HandleEventMessages(EventFrame(ch, Status(ChannelClose, code)));
    sensor.HandleEventMessages(EventFrame(ch, Status(ChannelUnassign, code)));
    written, emitted, bound := sensor.writes, sensor.notes, sensor.channel;
  }
}

