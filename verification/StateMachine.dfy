/** `Device` of state_machine.py: the event queue, the reader and the retrying command transaction. */
module StateMachine {
  import opened Bytes
  import opened IncrementalScan
  import opened Framing
  import opened FramingTheorems
  import opened FramingAccounts
  import opened Commands
  import opened Simulator

  datatype State =
    | Disconnected | Opening | Detecting | Connected | RequestingStatus | EnteringInstallation
    | Configuring | ChangingBaud | Verifying | Starting | Streaming | Stopping | Faulted

  /** What the reader puts into `_events`. */
  datatype Arrival = Ack | Nak | Reply(response: Response) | Fault(error: Error)

  const QUEUE_SIZE: nat := 64

  // ---------------------------------------------------------------- what `_handle` does with an event

  /** What is queued, whether the device faults, and whether it does so because the scanner restarted. */
  datatype Effect = Effect(queued: seq<Arrival>, faults: bool, restarts: bool)

  const NO_EFFECT := Effect([], false, false)

  function Settled(state: State, e: Effect): State {
    if e.faults || (e.restarts && state == Streaming) then Faulted else state
  }

  /** `decode_scan` returns: the checks on the integer header, unit and length. */
  predicate ScanDecodes(reply: Response, info: DeviceStatus, config: Bytes) {
    && IsConfiguration(config)
    && ValidGeometry(info.angle, info.resolution)
    && reply.command == 0xB0 && |reply.data| >= 2
    && config[5] <= 2
    && var header := Number(reply.data[0], reply.data[1]);
       && header / 0x400 % 16 == 0
       && header / 0x4000 <= 1
       && LegalUnit(config) && header / 0x4000 == config[6]
       && header % 0x400 == info.angle * 100 / info.resolution + 1
       && |reply.data| == 2 + 2 * (header % 0x400) + (if Bit1(config[4]) then 2 else 0)
  }

  function FrameEffect(frame: Frame, address: nat, info: Option<DeviceStatus>, config: Option<Bytes>): Effect {
    match Respond(frame, address)
    case Err(DeviceError) => Effect([Fault(DeviceError)], false, false)
    case Err(_) => NO_EFFECT
    case Ok(reply) =>
      if reply.command == 0xB0 then
        if info.None? || config.None? then NO_EFFECT
        else if !ScanDecodes(reply, info.value, config.value) then NO_EFFECT
        else if !Commands.Healthy(reply) then Effect([Fault(DeviceError)], true, false)
        else NO_EFFECT
      else if reply.command == 0x90 || reply.command == 0x91 then Effect([], false, true)
      else Effect([Reply(reply)], false, false)
  }

  function HandleEvent(event: Event, address: nat, info: Option<DeviceStatus>, config: Option<Bytes>): Effect {
    match event
    case Acknowledged => Effect([Ack], false, false)
    case Refused => Effect([Nak], false, false)
    case Telegram(frame) => FrameEffect(frame, address, info, config)
  }

  function Arrivals(events: seq<Event>, address: nat, info: Option<DeviceStatus>, config: Option<Bytes>): seq<Arrival> {
    if events == [] then [] else
      HandleEvent(events[0], address, info, config).queued + Arrivals(events[1..], address, info, config)
  }

  function StateAfter(state: State, events: seq<Event>, address: nat, info: Option<DeviceStatus>, config: Option<Bytes>)
    : State
    decreases |events|
  {
    if events == [] then state else
      StateAfter(Settled(state, HandleEvent(events[0], address, info, config)), events[1..], address, info, config)
  }

  /** What a full queue keeps: the newest. */
  function Latest(arrivals: seq<Arrival>): seq<Arrival> {
    if |arrivals| <= QUEUE_SIZE then arrivals else arrivals[|arrivals| - QUEUE_SIZE..]
  }

  lemma LatestTwice(a: seq<Arrival>, b: seq<Arrival>)
    ensures Latest(Latest(a) + b) == Latest(a + b)
  {
  }

  lemma {:induction false} FaultlessKeeps(
    state: State, events: seq<Event>, address: nat, info: Option<DeviceStatus>, config: Option<Bytes>)
    requires Faultless(events, address, info, config) && state != Streaming
    ensures StateAfter(state, events, address, info, config) == state
    decreases |events|
  {
    hide HandleEvent;
    if events != [] {
      assert events[0] in events;
      FaultlessKeeps(state, events[1..], address, info, config);
    }
  }

  predicate Faultless(events: seq<Event>, address: nat, info: Option<DeviceStatus>, config: Option<Bytes>) {
    forall e | e in events :: !HandleEvent(e, address, info, config).faults
  }

  /** Measurement telegrams of a healthy scanner. */
  predicate IsScan(s: Sent) {
    && Sendable(s) && s.Message? && s.address == 0x81 && 2 <= |s.payload| <= MAX_PAYLOAD
    && s.payload[0] == 0xB0 && Severity(s.payload[|s.payload| - 1]) < 3
  }

  ghost predicate ScanTraffic(bytes: Bytes) {
    exists sent: seq<Sent> :: (forall s | s in sent :: IsScan(s)) && bytes == LineBytes(sent)
  }

  /** Replies of a healthy scanner. */
  predicate IsReply(s: Sent) {
    && Sendable(s) && s.Message? && s.address == 0x81 && |s.payload| >= 2
    && s.payload[0] in {0xB1, 0xBA, 0xF4, 0xA0, 0xBB, 0xF7, 0x92} && Severity(s.payload[|s.payload| - 1]) < 3
  }

  /** Everything a fault-free scanner puts on the line. */
  predicate Ordinary(s: Sent) {
    s == Byte06 || IsScan(s) || IsReply(s)
  }

  function ReplyArrival(reply: Bytes): Arrival
    requires 2 <= |reply| <= MAX_PAYLOAD
  {
    if reply[0] == 0x92 then Fault(DeviceError)
    else Reply(Response(reply[0], reply[1..|reply| - 1], reply[|reply| - 1], Frame(0x81, reply, Wire(reply, 0x81))))
  }

  /** What one such item brings into the queue. */
  function Brings(s: Sent): seq<Arrival>
    requires Ordinary(s)
  {
    if s == Byte06 then [Ack] else if IsScan(s) then [] else [ReplyArrival(s.payload)]
  }

  function Expected(pending: seq<Sent>): seq<Arrival>
    requires forall s | s in pending :: Ordinary(s)
  {
    if pending == [] then [] else Brings(pending[0]) + Expected(pending[1..])
  }

  lemma OrdinaryIsHeard(s: Sent, address: nat, info: Option<DeviceStatus>, config: Option<Bytes>)
    requires Ordinary(s) && address <= 1
    ensures var e := HandleEvent(SentEvent(s), address, info, config);
      !e.faults && Brings(s) == e.queued
  {
    hide Wire, ScanDecodes;
  }

  /** Scans stay out of the command queue; an ACK and a reply enter it, whatever the device knows. */
  lemma {:induction false} OrdinaryTraffic(sent: seq<Sent>, address: nat, info: Option<DeviceStatus>, config: Option<Bytes>)
    requires (forall s | s in sent :: Ordinary(s)) && address <= 1
    ensures forall s | s in sent :: Sendable(s)
    ensures Arrivals(LineEvents(sent), address, info, config) == Expected(sent)
    ensures Faultless(LineEvents(sent), address, info, config)
    decreases |sent|
  {
    OrdinaryIsSendable(sent);
    hide Wire, Ordinary, HandleEvent, SentEvent, Brings;
    if sent != [] {
      OrdinaryTraffic(sent[1..], address, info, config);
      assert LineEvents(sent)[1..] == LineEvents(sent[1..]);
      OrdinaryIsHeard(sent[0], address, info, config);
      assert LineEvents(sent) == [SentEvent(sent[0])] + LineEvents(sent[1..]);
    }
  }

  lemma {:induction false} ExpectedConcat(a: seq<Sent>, b: seq<Sent>)
    requires (forall s | s in a :: Ordinary(s)) && (forall s | s in b :: Ordinary(s))
    ensures forall s | s in a + b :: Ordinary(s)
    ensures Expected(a + b) == Expected(a) + Expected(b)
    decreases |a|
  {
    hide Ordinary, Brings;
    if a == [] {
      assert a + b == b;
      AppendNothing(Expected(b));
    } else {
      ExpectedConcat(a[1..], b);
      assert (a + b)[1..] == a[1..] + b && (a + b)[0] == a[0];
      Regroup(Brings(a[0]), Expected(a[1..]), Expected(b));
    }
  }

  lemma {:induction false} ScansBringNothing(sent: seq<Sent>)
    requires forall s | s in sent :: IsScan(s)
    ensures Expected(sent) == []
    decreases |sent|
  {
    hide IsScan, IsReply;
    if sent != [] {
      ScansBringNothing(sent[1..]);
      NotAck(sent[0]);
    }
  }

  lemma NotAck(s: Sent)
    requires IsScan(s)
    ensures s != Byte06
  {
  }

  // ---------------------------------------------------------------- one attempt, as a function

  datatype Verdict = Replied(response: Response) | TimedOut | Negative | Raised(error: Error)

  /** What the wait loop makes of these queued events followed by silence. */
  function Judge(cmd: Command, events: seq<Arrival>, ack: bool): Verdict {
    if events == [] then TimedOut else
      match JudgeOne(cmd, events[0], ack)
      case Some(verdict) => verdict
      case None => Judge(cmd, events[1..], ack || events[0] == Ack)
  }

  /** What one event does to the loop: end it, or go on waiting. */
  function JudgeOne(cmd: Command, event: Arrival, ack: bool): Option<Verdict> {
    match event
    case Fault(error) => Some(Raised(error))
    case Nak => Some(Negative)
    case Ack => None
    case Reply(r) =>
      if r.command == cmd.responseId && ack then
        Some(if Confirmed(r, cmd.payload) then Replied(r) else Raised(DeviceError))
      else None
  }

  /** What is left of these events once the loop has ended. */
  function Leftover(cmd: Command, events: seq<Arrival>, ack: bool): seq<Arrival> {
    if events == [] then []
    else if JudgeOne(cmd, events[0], ack).Some? then events[1..]
    else Leftover(cmd, events[1..], ack || events[0] == Ack)
  }

  /** What reaches the queue when a fault-free scanner answers. */
  function AnswerArrivals(sc: Scanner, payload: Bytes): (arrivals: seq<Arrival>)
    requires payload == [0x31] ==> Reportable(sc)
    ensures |arrivals| == 2 && arrivals[0] == Ack
  {
    [Ack, ReplyArrival(ReplyTo(sc, payload))]
  }

  lemma AnswerLeavesNothing(cmd: Command, events: seq<Arrival>)
    requires |events| == 2 && events[0] == Ack
    ensures Leftover(cmd, events, false) == []
  {
    assert events[1..][1..] == [];
    assert Leftover(cmd, events[1..], true) == [];
  }

  lemma ReplyHeads(sc: Scanner, payload: Bytes)
    requires payload == [0x31] ==> Reportable(sc)
    ensures var reply := ReplyTo(sc, payload);
      reply[0] in {0xB1, 0xBA, 0xF4, 0xA0, 0xBB, 0xF7, 0x92} && reply[|reply| - 1] == sc.status
  {
    hide StatusData;
  }

  lemma AnswerIsOrdinary(sc: Scanner, payload: Bytes)
    requires FaultFree(sc)
    ensures var sent := [Byte06, Message(0x81, ReplyTo(sc, payload))];
      (forall s | s in sent :: Ordinary(s)) && Expected(sent) == AnswerArrivals(sc, payload)
  {
    ReplyHeads(sc, payload);
    hide Wire, StatusData, React, ReplyTo;
    var reply := ReplyTo(sc, payload);
    var message := Message(0x81, reply);
    assert IsReply(message) && !IsScan(message);
    assert [Byte06, message][1..] == [message] && [message][1..] == [];
    assert Expected([message]) == [ReplyArrival(reply)];
  }

  // ---------------------------------------------------------------- the environment

  type Delay = d: real | 0.0 <= d

  /** What the reader task meets next. */
  datatype Input = Chunk(bytes: Bytes) | Stale | Ended | Broken

  /** One step of the outside world at a suspension point; `fails` makes a transport call raise and cancels a wait. */
  datatype Move = Move(delay: Delay, input: Input, fails: bool)

  /**
   The transport.  Without a scanner its reads are the inputs of an arbitrary script, and an empty
   script is silence.  With the simulated scanner, a chunk of the script is what its producer emits
   at that moment, provided both ends use the same rate; `inbound` are the fragments of scans and
   answers that have not been read.
   */
  datatype Link = Link(script: seq<Move>, inbound: seq<Bytes>, scanner: Option<Scanner>, baud: nat)

  /** The producer emits nothing but healthy scans. */
  ghost predicate Quiet(script: seq<Move>) {
    forall m | m in script :: !m.fails && m.input.Chunk? && ScanTraffic(m.input.bytes)
  }

  /** Buffered and unread bytes together are these items. */
  ghost predicate OnTheLine(buffer: Bytes, inbound: seq<Bytes>, pending: seq<Sent>) {
    (forall s | s in pending :: Ordinary(s)) && buffer + Flatten(inbound) == LineBytes(pending)
  }

  /** The line will bring exactly these arrivals. */
  ghost predicate WillBring(buffer: Bytes, inbound: seq<Bytes>, arrivals: seq<Arrival>) {
    Decide(buffer) == Wait
    && exists pending: seq<Sent> :: OnTheLine(buffer, inbound, pending) && Expected(pending) == arrivals
  }

  /** Time stands still while there is something to read. */
  predicate Progress(was: Link, link: Link) {
    |link.script| < |was.script| || (link.script == was.script && |link.inbound| < |was.inbound|)
  }

  /**
   What the device does, in order.  `mark` is the number of arrivals when the attempt drained the
   queue; `response` is the confirmed reply that `command` returned.
   */
  datatype Action =
    | Opened
    | Wrote(name: Name, payload: Bytes, mark: nat)
    | Obtained(name: Name, response: Response)
    | CleanupBegan
    | Closed

  datatype Outset = Outset(changed: bool, open: bool, configuration: Option<Bytes>, arrived: seq<Arrival>)

  datatype Counters = Counters(timeouts: nat, naks: nat, malformed: nat, unexpected: nat)

  /** The writes of one `command`, each behind its own drain; `from` arrivals came before the first. */
  predicate AreAttempts(cmd: Command, attempts: seq<Action>, from: nat) {
    && (forall i | 0 <= i < |attempts| ::
          attempts[i].Wrote? && attempts[i].name == cmd.name && attempts[i].payload == cmd.payload)
    && (attempts != [] ==> attempts[0].mark == from)
    && (forall i, j | 0 <= i < j < |attempts| :: attempts[i].mark <= attempts[j].mark)
  }

  /** Among the arrivals, behind number `mark`: an ACK and behind that this reply, which confirms the request. */
  ghost predicate Vouched(arrived: seq<Arrival>, mark: int, id: Byte, payload: Bytes, response: Response) {
    && response.command == id && Confirmed(response, payload)
    && exists a, b | mark <= a < b < |arrived| :: a >= 0 && arrived[a] == Ack && arrived[b] == Reply(response)
  }

  /** Every reply in the trace answers the write just before it and arrived behind that write's drain. */
  ghost predicate Grounded(run: seq<Action>, arrived: seq<Arrival>) {
    forall k | 0 <= k < |run| && run[k].Obtained? ::
      && k >= 1 && run[k - 1].Wrote? && run[k - 1].name == run[k].name
      && Vouched(arrived, run[k - 1].mark, ReplyId(run[k].name), run[k - 1].payload, run[k].response)
  }

  class Device {
    const settings: Settings
    const canSetBaud: bool
    const framer: Framer
    var state: State
    var info: Option<DeviceStatus>
    var model: Option<Bytes>
    var configuration: Option<Bytes>
    var queue: seq<Arrival>
    var counters: Counters
    var changed: bool
    var open: bool
    var reading: bool
    var shielded: bool  // inside `_close_unlocked`, where no second cancellation is modelled
    var now: real
    var link: Link
    ghost var arrived: seq<Arrival>  // everything ever put into the queue
    ghost var waited: real           // time spent waiting for events
    ghost var run: seq<Action>
    ghost var outset: Outset         // what held when the run began

    constructor (settings: Settings, canSetBaud: bool, link: Link)
      ensures this.settings == settings && this.canSetBaud == canSetBaud && this.link == link
      ensures state == Disconnected && !open && !changed && QueueOk() && run == [] && arrived == [] && fresh(framer)
      ensures info.None? && model.None? && configuration.None? && !shielded
    {
      this.settings, this.canSetBaud, this.link := settings, canSetBaud, link;
      framer := new Framer();
      state, info, model, configuration := Disconnected, None, None, None;
      queue, arrived, counters := [], [], Counters(0, 0, 0, 0);
      changed, open, reading, shielded, now := false, false, false, false, 0.0;
      waited, run, outset := 0.0, [], Outset(false, false, None, []);
    }

    /** The bounded queue is the newest part of everything that arrived. */
    ghost predicate QueueOk()
      reads this`queue, this`arrived
    {
      |queue| <= QUEUE_SIZE && |queue| <= |arrived| && queue == arrived[|arrived| - |queue|..]
    }

    /** Index of the arrival at the head of the queue. */
    ghost function Head(): int
      reads this`queue, this`arrived
    {
      |arrived| - |queue|
    }

    /** Nothing disturbs the reader. */
    ghost predicate Undisturbed()
      reads this`link, this`reading
    {
      Quiet(link.script) && reading && settings.address <= 1 && link.scanner.Some?
    }

    /** Queue and line together hold exactly these arrivals. */
    ghost predicate Expecting(arrivals: seq<Arrival>)
      reads this`link, this`reading, this`queue, framer`buffer
    {
      && Undisturbed() && |queue| <= |arrivals| <= QUEUE_SIZE && queue == arrivals[..|queue|]
      && WillBring(framer.buffer, link.inbound, arrivals[|queue|..])
    }

    /** Nothing on the line but healthy scans. */
    ghost predicate Calm()
      reads this`link, this`reading, framer`buffer
    {
      Undisturbed() && WillBring(framer.buffer, link.inbound, [])
    }

    /** The rates differ and nothing is on the line. */
    ghost predicate Deaf()
      reads this`link, framer`buffer
    {
      link.scanner.Some? && link.baud != link.scanner.value.baud && link.inbound == [] && framer.buffer == []
    }

    lemma CalmExpects()
      requires Calm() && QueueOk()
      ensures Expecting(queue)
    {
      hide Quiet, WillBring;
      assert queue[..|queue|] == queue && queue[|queue|..] == [];
    }

    lemma ExpectsCalm(arrivals: seq<Arrival>)
      requires Expecting(arrivals) && |arrivals| <= |queue|
      ensures Calm() && queue == arrivals
    {
      hide Quiet, WillBring;
      assert arrivals[|arrivals|..] == [];
    }

    lemma SomethingToRead(arrivals: seq<Arrival>)
      requires Expecting(arrivals) && link.inbound == []
      ensures Calm() && queue == arrivals && framer.buffer == []
    {
      hide Quiet;
      NothingToRead(framer.buffer, arrivals[|queue|..]);
      ExpectsCalm(arrivals);
    }

    /** `_queue`: drop the oldest event when full. */
    method Enqueue(event: Arrival)
      requires QueueOk()
      modifies this`queue, this`counters, this`arrived
      ensures QueueOk() && arrived == old(arrived) + [event] && old(Head()) <= Head()
      ensures queue == Latest(old(queue) + [event])
      ensures counters == old(counters).(unexpected := counters.unexpected)
      ensures counters.unexpected == old(counters.unexpected) + if old(|queue|) == QUEUE_SIZE then 1 else 0
    {
      if |queue| >= QUEUE_SIZE {
        queue := queue[1..];
        counters := counters.(unexpected := counters.unexpected + 1);
      }
      queue := queue + [event];
      arrived := arrived + [event];
    }

    method Handle(event: Event)
      requires QueueOk()
      modifies this`queue, this`counters, this`arrived, this`state
      ensures QueueOk() && old(Head()) <= Head()
      ensures var e := HandleEvent(event, settings.address, info, configuration);
        && queue == Latest(old(queue) + e.queued) && arrived == old(arrived) + e.queued
        && state == Settled(old(state), e)
    {
      WithinBounds();
      hide ScanDecodes, Latest, Respond, QueueOk, FrameEffect;
      AppendNothing(queue);
      AppendNothing(arrived);
      var queued: seq<Arrival> := [];
      if event.Acknowledged? {
        queued := [Ack];
      } else if event.Refused? {
        queued := [Nak];
      } else {
        queued := HandleTelegram(event.frame);
      }
      if queued != [] {
        assert queued == [queued[0]];
        Enqueue(queued[0]);
      }
    }

    /** The part of `_handle` for telegrams; what it hands to `_queue`. */
    method HandleTelegram(frame: Frame) returns (queued: seq<Arrival>)
      modifies this`counters, this`state
      ensures var e := FrameEffect(frame, settings.address, info, configuration);
        queued == e.queued && |queued| <= 1 && state == Settled(old(state), e)
    {
      hide ScanDecodes, Respond;
      queued := [];
      var reply := Respond(frame, settings.address);
      if reply == Err(DeviceError) {
        return [Fault(DeviceError)];
      }
      if reply.Err? {
        counters := counters.(malformed := counters.malformed + 1);
        return;
      }
      if reply.value.command == 0xB0 {
        if configuration.None? || info.None? {
          return;
        }
        if !ScanDecodes(reply.value, info.value, configuration.value) {
          counters := counters.(malformed := counters.malformed + 1);
          return;
        }
        if !Commands.Healthy(reply.value) {
          state := Faulted;
          return [Fault(DeviceError)];
        }
      } else if reply.value.command == 0x90 || reply.value.command == 0x91 {
        if state == Streaming {
          state := Faulted;
        }
      } else {
        return [Reply(reply.value)];
      }
    }

    method HandleAll(events: seq<Event>)
      requires QueueOk()
      modifies this`queue, this`counters, this`arrived, this`state
      ensures QueueOk() && old(arrived) <= arrived && old(Head()) <= Head()
      ensures Handled(events, old(queue), old(arrived), old(state))
    {
      hide HandleEvent, Latest;
      ghost var more := Arrivals(events, settings.address, info, configuration);
      ghost var done: seq<Arrival> := [];
      AppendNothing(queue);
      AppendNothing(arrived);
      AppendNothing(more);
      assert events[0..] == events;
      WithinBounds();
      for i := 0 to |events|
        invariant QueueOk() && old(Head()) <= Head()
        invariant more == done + Arrivals(events[i..], settings.address, info, configuration)
        invariant queue == Latest(old(queue) + done) && arrived == old(arrived) + done
        invariant StateAfter(state, events[i..], settings.address, info, configuration)
               == StateAfter(old(state), events, settings.address, info, configuration)
      {
        ghost var e := HandleEvent(events[i], settings.address, info, configuration);
        assert events[i..][1..] == events[i + 1..];
        Regroup(done, e.queued, Arrivals(events[i + 1..], settings.address, info, configuration));
        LatestTwice(old(queue) + done, e.queued);
        Regroup(old(queue), done, e.queued);
        Regroup(old(arrived), done, e.queued);
        Handle(events[i]);
        done := done + e.queued;
      }
      AppendNothing(done);
    }

    lemma WithinBounds()
      requires QueueOk()
      ensures Latest(queue) == queue
    {
    }

    /** One turn of `_read_loop`. */
    method Receive(input: Input)
      requires QueueOk()
      modifies this`queue, this`counters, this`arrived, this`state, this`reading, framer
      ensures QueueOk() && old(arrived) <= arrived && old(Head()) <= Head()
      ensures !old(reading) ==>
        !reading && queue == old(queue) && arrived == old(arrived) && state == old(state) && framer.Value() == old(framer.Value())
      ensures old(reading) && (input.Chunk? || input.Stale?) ==>
        var next := if input.Chunk? then Feed(old(framer.Value()), input.bytes) else Expire(old(framer.Value()));
        && reading && framer.Value() == next && |old(framer.emitted)| <= |next.log.events|
        && Handled(next.log.events[|old(framer.emitted)|..], old(queue), old(arrived), old(state))
      ensures old(reading) && (input.Ended? || input.Broken?) ==>
        && !reading && state == Faulted && framer.Value() == old(framer.Value())
        && queue == Latest(old(queue) + [Fault(TransportError)]) && arrived == old(arrived) + [Fault(TransportError)]
      ensures old(reading) && input.Chunk? ==>
        var s := Tokens(old(framer.buffer) + input.bytes, 0);
        framer.buffer == s.rest && Handled(Reported(s.items), old(queue), old(arrived), old(state))
    {
      hide Tokens, NoteAll, Handled, Latest;
      if !reading {
        return;
      }
      match input {
        case Chunk(bytes) =>
          ghost var before := framer.Value();
          ghost var s := Tokens(before.buffer + bytes, before.offset);
          var events := framer.FeedBytes(bytes);
          EventsOfNotes(before.log, s.items);
          OffsetsIrrelevant(before.buffer + bytes, before.offset, 0);
          assert events == framer.emitted[|before.log.events|..] == Reported(s.items);
          HandleAll(events);
        case Stale =>
          ghost var before := framer.Value();
          var events := framer.ExpireStale();
          assert events == framer.emitted[|before.log.events|..];
          HandleAll(events);
        case Ended =>
          state := Faulted;
          Enqueue(Fault(TransportError));
          reading := false;
        case Broken =>
          state := Faulted;
          Enqueue(Fault(TransportError));
          reading := false;
      }
    }

    /** Queue, arrivals and state are what these events make of the earlier ones. */
    ghost predicate Handled(events: seq<Event>, queued: seq<Arrival>, before: seq<Arrival>, was: State)
      reads this`queue, this`arrived, this`state, this`info, this`configuration
    {
      var more := Arrivals(events, settings.address, info, configuration);
      && queue == Latest(queued + more) && arrived == before + more
      && state == StateAfter(was, events, settings.address, info, configuration)
    }

    /** The reader gets the next fragment of what the scanner has sent. */
    method ReadFragment(ghost arrivals: seq<Arrival>)
      requires QueueOk() && link.inbound != []
      modifies this`queue, this`counters, this`arrived, this`state, this`reading, this`link, framer
      ensures QueueOk() && old(arrived) <= arrived && old(Head()) <= Head()
      ensures link == old(link).(inbound := old(link.inbound)[1..])
      ensures old(Expecting(arrivals)) && old(state) != Streaming ==>
        Expecting(arrivals) && old(queue) <= queue && state == old(state) && (old(Deaf()) ==> Deaf())
    {
      hide Tokens, Arrivals, Faultless, Reported, Quiet, WillBring;
      var fragment := link.inbound[0];
      ghost var was := queue;
      if Expecting(arrivals) && state != Streaming {
        ReadBrings(framer.buffer, link.inbound, arrivals[|queue|..], settings.address, info, configuration);
      }
      link := link.(inbound := link.inbound[1..]);
      Receive(Chunk(fragment));
      if old(Expecting(arrivals)) && old(state) != Streaming {
        FaultlessKeeps(old(state), Reported(Tokens(old(framer.buffer) + fragment, 0).items), settings.address, info, configuration);
        TakenFrom(arrivals, was, queue);
      }
    }

    /** One move of the world: the producer's emission, or whatever the reader meets. */
    method NextMove(ghost arrivals: seq<Arrival>) returns (failed: bool)
      requires QueueOk() && link.script != [] && link.inbound == []
      modifies this`queue, this`counters, this`arrived, this`state, this`reading, this`link, framer
      ensures QueueOk() && old(arrived) <= arrived && old(Head()) <= Head()
      ensures link == old(link).(script := old(link.script)[1..], inbound := link.inbound)
      ensures old(Expecting(arrivals)) && old(state) != Streaming ==>
        Expecting(arrivals) && !failed && queue == old(queue) && state == old(state) && (old(Deaf()) ==> Deaf())
    {
      hide Tokens, Arrivals, Faultless, Reported, Quiet, WillBring, ScanTraffic;
      var m := link.script[0];
      QuietTail(link.script);
      link := link.(script := link.script[1..]);
      failed := m.fails;
      if link.scanner.Some? && m.input.Chunk? {
        if link.baud == link.scanner.value.baud {
          if old(Expecting(arrivals)) {
            ScanBringsNothing(framer.buffer, [], arrivals[|queue|..], m.input.bytes);
            AppendNothing(Fragments(m.input.bytes));
          }
          link := link.(inbound := Fragments(m.input.bytes));
        }
      } else {
        Receive(m.input);
      }
    }

    /** A suspension point: something is read, or the world makes its next move, if it has one. */
    method Suspend(ghost arrivals: seq<Arrival>) returns (failed: bool)
      requires QueueOk()
      modifies this`queue, this`counters, this`arrived, this`state, this`reading, this`now, this`link, framer
      ensures QueueOk() && old(arrived) <= arrived && old(Head()) <= Head()
      ensures link == old(link).(script := link.script, inbound := link.inbound)
      ensures link == old(link) || Progress(old(link), link)
      ensures old(Expecting(arrivals)) && old(state) != Streaming ==>
        Expecting(arrivals) && !failed && old(queue) <= queue && state == old(state) && (old(Deaf()) ==> Deaf())
    {
      hide Quiet, WillBring;
      failed := false;
      if link.inbound != [] {
        ReadFragment(arrivals);
      } else if link.script != [] {
        now := now + link.script[0].delay;
        failed := NextMove(arrivals);
      }
    }

    /** Waiting on an empty queue until something happens, or for all the time that is `left`. */
    method Idle(left: real, ghost arrivals: seq<Arrival>) returns (rest: real, timedOut: bool, cancelled: bool)
      requires QueueOk() && left >= 0.0
      modifies this`queue, this`counters, this`arrived, this`state, this`reading, this`now, this`link, this`waited, framer
      ensures QueueOk() && old(arrived) <= arrived && old(Head()) <= Head()
      ensures link == old(link).(script := link.script, inbound := link.inbound)
      ensures !timedOut ==> Progress(old(link), link)
      ensures 0.0 <= rest <= left && now == old(now) + (left - rest) && waited == old(waited) + (left - rest)
      ensures old(link.inbound) != [] ==> !timedOut && rest == left
      ensures timedOut ==> queue == old(queue) && link.inbound == []
      ensures timedOut || shielded ==> !cancelled
      ensures old(Expecting(arrivals)) && old(state) != Streaming ==>
        Expecting(arrivals) && !cancelled && old(queue) <= queue && state == old(state) && (old(Deaf()) ==> Deaf())
    {
      hide Quiet, WillBring;
      if link.inbound != [] {
        ReadFragment(arrivals);
        return left, false, false;
      }
      cancelled := false;
      timedOut := link.script == [] || link.script[0].delay > left;
      if timedOut {
        if link.script != [] {
          QuietDelayed(link.script, link.script[0].delay - left);
          link := link.(script := [link.script[0].(delay := link.script[0].delay - left)] + link.script[1..]);
        }
        now, waited, rest := now + left, waited + left, 0.0;
        return;
      }
      var delay := link.script[0].delay;
      rest := left - delay;
      now, waited := now + delay, waited + delay;
      var failed := NextMove(arrivals);
      cancelled := failed && !shielded;
    }

    /** `await asyncio.wait_for(self._events.get(), remaining)`; `at` is the arrival index of the event. */
    method Wait(remaining: real, ghost arrivals: seq<Arrival>)
      returns (event: Option<Arrival>, cancelled: bool, ghost at: int)
      requires QueueOk() && remaining > 0.0
      modifies this`queue, this`counters, this`arrived, this`state, this`reading, this`now, this`link, this`waited, framer
      ensures QueueOk() && old(arrived) <= arrived && old(Head()) <= Head()
      ensures link == old(link).(script := link.script, inbound := link.inbound)
      ensures event.Some? ==> old(Head()) <= at < Head() && arrived[at] == event.value
      ensures event.Some? ==> Progress(old(link), link) || (link == old(link) && |queue| < |old(queue)|)
      ensures 0.0 <= now - old(now) <= remaining && waited == old(waited) + (now - old(now))
      ensures old(Expecting(arrivals)) && old(state) != Streaming ==>
        && state == old(state) && !cancelled && (old(Deaf()) ==> Deaf())
        && (arrivals != [] ==> event == Some(arrivals[0]) && Expecting(arrivals[1..]) && now == old(now))
        && (arrivals == [] ==> event.None? && Expecting([]))
    {
      hide Quiet, WillBring, Progress;
      at := 0;
      ghost var ideal := Expecting(arrivals) && state != Streaming;
      var timedOut;
      timedOut, cancelled := UntilQueued(remaining, arrivals);
      if timedOut || cancelled {
        return None, cancelled, 0;
      }
      at := Head();
      event := Some(queue[0]);
      queue := queue[1..];
      if ideal {
        assert arrivals[1..][|queue|..] == arrivals[|queue| + 1..];
      }
    }

    method UntilQueued(remaining: real, ghost arrivals: seq<Arrival>) returns (timedOut: bool, cancelled: bool)
      requires QueueOk() && remaining > 0.0
      modifies this`queue, this`counters, this`arrived, this`state, this`reading, this`now, this`link, this`waited, framer
      ensures QueueOk() && old(arrived) <= arrived && old(Head()) <= Head()
      ensures link == old(link).(script := link.script, inbound := link.inbound)
      ensures !timedOut && !cancelled ==> queue != []
      ensures !timedOut && !cancelled ==> Progress(old(link), link) || (link == old(link) && queue == old(queue))
      ensures 0.0 <= now - old(now) <= remaining && waited == old(waited) + (now - old(now))
      ensures old(Expecting(arrivals)) && old(state) != Streaming ==>
        && Expecting(arrivals) && state == old(state) && !cancelled && (old(Deaf()) ==> Deaf())
        && (timedOut ==> arrivals == [])
        && (arrivals != [] ==> now == old(now))
    {
      hide Expecting, Progress, Deaf;
      var left := remaining;
      timedOut, cancelled := false, false;
      ghost var ideal := Expecting(arrivals) && state != Streaming;
      while queue == []
        invariant QueueOk() && old(arrived) <= arrived && old(Head()) <= Head()
        invariant link == old(link).(script := link.script, inbound := link.inbound)
        invariant Progress(old(link), link) || (link == old(link) && queue == old(queue))
        invariant 0.0 <= left <= remaining && now == old(now) + (remaining - left)
        invariant waited == old(waited) + (remaining - left)
        invariant ideal ==> Expecting(arrivals) && state == old(state) && (arrivals != [] ==> left == remaining)
        invariant ideal && old(Deaf()) ==> Deaf()
        decreases |link.script|, |link.inbound|
      {
        if ideal && link.inbound == [] {
          SomethingToRead(arrivals);
        }
        ghost var was := link;
        left, timedOut, cancelled := Idle(left, arrivals);
        if timedOut {
          if ideal {
            SomethingToRead(arrivals);
          }
          return;
        }
        if cancelled {
          return;
        }
        ProgressOn(old(link), was, link);
        ProgressMeans(was, link);
      }
    }

    /** The line is calm and the simulated scanner on it has no fault. */
    ghost predicate Ideal()
      reads this`link, this`reading, framer`buffer
    {
      Calm() && link.scanner.Some? && FaultFree(link.scanner.value)
    }

    /** What a write to a fault-free scanner leads to. */
    ghost predicate Answered(sc: Scanner, payload: Bytes)
      requires FaultFree(sc)
      reads this`link, this`reading, this`queue, framer`buffer
    {
      if link.baud != sc.baud then Expecting([]) && link.scanner == Some(sc)
      else Expecting(AnswerArrivals(sc, payload)) && link.scanner == Some(Obeyed(sc, payload))
    }

    /** Between two of the scanner's emissions its producer may get the lock and emit a scan of its own. */
    method Interject(ghost arrivals: seq<Arrival>)
      modifies this`link
      ensures link == old(link).(script := link.script, inbound := link.inbound)
      ensures |link.script| <= |old(link.script)|
      ensures old(Undisturbed()) && old(WillBring(framer.buffer, link.inbound, arrivals)) ==>
        Undisturbed() && WillBring(framer.buffer, link.inbound, arrivals)
    {
      hide Quiet, WillBring, ScanTraffic;
      if link.script == [] || link.scanner.None? || link.baud != link.scanner.value.baud {
        return;
      }
      var m := link.script[0];
      if m.delay == 0.0 && m.input.Chunk? && !m.fails {
        QuietTail(link.script);
        if Undisturbed() && WillBring(framer.buffer, link.inbound, arrivals) {
          ScanBringsNothing(framer.buffer, link.inbound, arrivals, m.input.bytes);
        }
        link := link.(script := link.script[1..], inbound := link.inbound + Fragments(m.input.bytes));
      }
    }

    /** The simulated scanner, if there is one, hears the telegram and puts ACK and reply on the line, one after the other. */
    method Transmit(payload: Bytes) returns (failed: bool)
      requires QueueOk() && 1 <= |payload| <= MAX_PAYLOAD && settings.address <= 127
      modifies this`link
      ensures link == old(link).(script := link.script, scanner := link.scanner, inbound := link.inbound)
      ensures old(Ideal()) && queue == [] ==>
        Answered(old(link.scanner.value), payload) && !failed && (old(Deaf()) ==> Deaf())
    {
      hide Quiet, WillBring, WriteScanner, FaultFree, Obeyed, AnswerArrivals, Fragments, Wire, ReplyTo;
      failed := false;
      if link.scanner.None? {
        return;
      }
      var sc := link.scanner.value;
      ghost var heard := link.baud == sc.baud;
      if Ideal() {
        AnswerSent(sc, link.baud, payload, settings.address);
      }
      var h := WriteScanner(sc, link.baud, Wire(payload, settings.address));
      var cut := if h.output != [] && h.output[0] == ACK then 1 else 0;
      if cut == 1 {
        if old(Ideal()) {
          AckBrings(framer.buffer, link.inbound);
        }
        link := link.(inbound := link.inbound + Fragments([ACK]));
        Interject([Ack]);
      }
      if old(Ideal()) {
        if heard {
          AnswerTail(sc, payload, h.output);
          ReplyBrings(framer.buffer, link.inbound, sc, payload);
        } else {
          AppendNothing(link.inbound);
        }
      }
      link := link.(scanner := Some(h.scanner), inbound := link.inbound + Fragments(h.output[cut..]));
      failed := h.raised;
    }

    /** `await self.transport.write(cmd.telegram(address))`. */
    method Write(cmd: Command) returns (failed: bool)
      requires QueueOk() && Built(cmd) && settings.address <= 127
      modifies this`queue, this`counters, this`arrived, this`state, this`reading, this`now, this`link, this`run, framer
      ensures QueueOk() && old(arrived) <= arrived && old(Head()) <= Head()
      ensures link == old(link).(script := link.script, inbound := link.inbound, scanner := link.scanner)
      ensures run == old(run) + [Wrote(cmd.name, cmd.payload, |old(arrived)|)]
      ensures old(Ideal()) && old(state) != Streaming && old(queue) == [] ==>
        && Answered(old(link.scanner.value), cmd.payload) && !failed && state == old(state)
        && (old(Deaf()) ==> Deaf())
    {
      hide Quiet, FaultFree, Obeyed, AnswerArrivals, WillBring;
      run := run + [Wrote(cmd.name, cmd.payload, |arrived|)];
      if Ideal() {
        CalmExpects();
      }
      failed := Suspend([]);
      if failed {
        return;
      }
      if old(Ideal()) && old(state) != Streaming && old(queue) == [] {
        ExpectsCalm([]);
      }
      failed := Transmit(cmd.payload);
    }

    /** Time this command may wait for its reply once it is acknowledged. */
    ghost function Budget(cmd: Command): real {
      cmd.timeout * settings.timeoutScale
    }

    /** The reply arrived behind an ACK, and both behind arrival number `mark`. */
    ghost predicate Evidence(mark: int, cmd: Command, response: Response)
      reads this`arrived
    {
      Vouched(arrived, mark, cmd.responseId, cmd.payload, response)
    }

    /** The branches on one event; None where the source goes on waiting. */
    method Consider(cmd: Command, event: Arrival, ack: bool, ghost arrivals: seq<Arrival>) returns (verdict: Option<Verdict>)
      requires QueueOk()
      modifies this`queue, this`counters, this`arrived, this`state, this`reading, this`now, this`link, framer
      ensures QueueOk() && old(arrived) <= arrived
      ensures link == old(link).(script := link.script, inbound := link.inbound)
      ensures verdict == JudgeOne(cmd, event, ack) || (event == Nak && verdict == Some(Raised(Cancelled)))
      ensures verdict.None? ==> arrived == old(arrived) && queue == old(queue) && link == old(link) && now == old(now)
      ensures old(Expecting(arrivals)) && old(state) != Streaming ==>
        && Expecting(arrivals) && state == old(state) && (old(Deaf()) ==> Deaf())
        && verdict == JudgeOne(cmd, event, ack)
    {
      hide Quiet, WillBring, Confirmed;
      verdict := None;
      match event {
        case Fault(error) =>
          verdict := Some(Raised(error));
        case Nak =>
          counters := counters.(naks := counters.naks + 1);
          var failed := Suspend(arrivals);  // sleep of 0.03 s
          verdict := Some(if failed && !shielded then Raised(Cancelled) else Negative);
        case Ack =>
        case Reply(response) =>
          if response.command == cmd.responseId && ack {
            verdict := Some(if Confirmed(response, cmd.payload) then Replied(response) else Raised(DeviceError));
          } else {
            counters := counters.(unexpected := counters.unexpected + 1);
          }
      }
    }

    /** The wait loop of `command` for one attempt. */
    method Await(cmd: Command, ghost mark: int, ghost arrivals: seq<Arrival>) returns (verdict: Verdict)
      requires QueueOk() && Built(cmd) && ValidSettings(settings) && 0 <= mark <= Head()
      modifies this`queue, this`counters, this`arrived, this`state, this`reading, this`now, this`link, this`waited, framer
      ensures QueueOk() && old(arrived) <= arrived
      ensures link == old(link).(script := link.script, inbound := link.inbound)
      ensures waited - old(waited) <= settings.ackTimeout + Budget(cmd)
      ensures verdict.Replied? ==> Evidence(mark, cmd, verdict.response)
      ensures old(Expecting(arrivals)) && old(state) != Streaming ==>
        && Expecting(Leftover(cmd, arrivals, false)) && verdict == Judge(cmd, arrivals, false)
        && state == old(state) && (old(Deaf()) ==> Deaf())
    {
      BudgetPositive(cmd, settings);
      hide Confirmed, Built, ValidSettings, Expecting, JudgeOne, Deaf, Progress;
      var ack := false;
      ghost var ackAt := 0;
      ghost var ideal := Expecting(arrivals) && state != Streaming;
      ghost var left := arrivals;
      var deadline := now + settings.ackTimeout;
      var budget := cmd.timeout * settings.timeoutScale;
      assert budget == Budget(cmd) && budget > 0.0;
      hide Budget;
      while true
        invariant QueueOk() && old(arrived) <= arrived && mark <= Head()
        invariant link == old(link).(script := link.script, inbound := link.inbound)
        invariant ack ==> mark <= ackAt < Head() && arrived[ackAt] == Ack
        invariant now <= deadline
        invariant waited - old(waited) + (deadline - now) <= settings.ackTimeout + (if ack then Budget(cmd) else 0.0)
        invariant ideal ==> Expecting(left) && state == old(state) && (old(Deaf()) ==> Deaf())
        invariant ideal ==> Judge(cmd, left, ack) == Judge(cmd, arrivals, false)
        invariant ideal ==> Leftover(cmd, left, ack) == Leftover(cmd, arrivals, false)
        invariant ideal && left != [] ==> now < deadline
        decreases |link.script|, |link.inbound|, |queue|
      {
        var remaining := deadline - now;
        if remaining <= 0.0 {
          return TimedOut;
        }
        ghost var was, size := link, |queue|;
        var event, cancelled, at := Wait(remaining, left);
        if cancelled {
          return Raised(Cancelled);
        }
        if event.None? {
          return TimedOut;
        }
        ProgressMeans(was, link);
        ghost var rest := if left == [] then [] else left[1..];
        var decided := Consider(cmd, event.value, ack, rest);
        if decided.Some? {
          assert arrived[at] == event.value;
          if decided.value.Replied? {
            RepliedMeans(cmd, event.value, ack, decided.value);
          }
          return decided.value;
        }
        left := rest;
        if event.value == Ack && !ack {
          ack, ackAt := true, at;
          deadline := now + budget;
        }
      }
    }

    /** One attempt: drain the queue, write, wait. */
    method Attempt(cmd: Command) returns (verdict: Verdict)
      requires QueueOk() && Built(cmd) && ValidSettings(settings)
      modifies this`queue, this`counters, this`arrived, this`state, this`reading, this`now, this`link, this`waited, this`run, framer
      ensures QueueOk() && old(arrived) <= arrived
      ensures link == old(link).(script := link.script, inbound := link.inbound, scanner := link.scanner)
      ensures run == old(run) + [Wrote(cmd.name, cmd.payload, |old(arrived)|)]
      ensures waited - old(waited) <= settings.ackTimeout + Budget(cmd)
      ensures verdict.Replied? ==> Evidence(|old(arrived)|, cmd, verdict.response)
      ensures old(Ideal()) && old(state) != Streaming ==>
        var sc := old(link.scanner.value);
        && Calm() && state == old(state) && (old(Deaf()) ==> Deaf())
        && (link.baud != sc.baud ==> verdict == TimedOut && link.scanner == Some(sc))
        && (link.baud == sc.baud ==>
              verdict == Judge(cmd, AnswerArrivals(sc, cmd.payload), false)
              && link.scanner == Some(Obeyed(sc, cmd.payload)))
    {
      BudgetPositive(cmd, settings);
      JudgeNothing(cmd);
      hide Quiet, FaultFree, Obeyed, AnswerArrivals, Judge, Built, ValidSettings, WillBring, Deaf, Leftover;
      ghost var mark := |arrived|;
      queue := [];
      var failed := Write(cmd);
      if failed {
        return Raised(TransportError);
      }
      ghost var arrivals: seq<Arrival> := [];
      ghost var ideal := old(Ideal()) && old(state) != Streaming;
      if ideal && link.baud == old(link.scanner.value.baud) {
        arrivals := AnswerArrivals(old(link.scanner.value), cmd.payload);
        AnswerLeavesNothing(cmd, arrivals);
      }
      verdict := Await(cmd, mark, arrivals);
      if ideal {
        ExpectsCalm([]);
      }
    }

    /** The scanner cannot hear the command, or will confirm it. */
    ghost predicate Cooperates(sc: Scanner, cmd: Command)
      requires FaultFree(sc)
      reads this`link
    {
      link.baud != sc.baud || Judge(cmd, AnswerArrivals(sc, cmd.payload), false).Replied?
    }

    /** How a fault-free scanner makes such a command end. */
    ghost predicate IdealOutcome(sc: Scanner, cmd: Command, r: Result<Response>)
      requires FaultFree(sc)
      reads this`link, this`reading, framer`buffer
    {
      && Calm()
      && if link.baud != sc.baud then r == Err(TimeoutError) && link.scanner == Some(sc)
         else
           && Judge(cmd, AnswerArrivals(sc, cmd.payload), false).Replied?
           && r == Ok(Judge(cmd, AnswerArrivals(sc, cmd.payload), false).response)
           && link.scanner == Some(Obeyed(sc, cmd.payload))
    }

    /** One round of the retry loop; None where the source goes round again. */
    method Round(cmd: Command, last: bool, ghost sc: Scanner) returns (outcome: Option<Result<Response>>)
      requires QueueOk() && Built(cmd) && ValidSettings(settings)
      modifies this`queue, this`counters, this`arrived, this`state, this`reading, this`now, this`link, this`waited, this`run, framer
      ensures QueueOk() && old(arrived) <= arrived
      ensures link == old(link).(script := link.script, inbound := link.inbound, scanner := link.scanner)
      ensures run == old(run) + [Wrote(cmd.name, cmd.payload, |old(arrived)|)]
      ensures waited - old(waited) <= settings.ackTimeout + Budget(cmd)
      ensures outcome.Some? && outcome.value.Ok? ==> Evidence(|old(arrived)|, cmd, outcome.value.value)
      ensures last ==> outcome.Some?
      ensures old(Willing(cmd, sc)) ==>
        && FaultFree(sc) && state == old(state) && (old(Deaf()) ==> Deaf())
        && (outcome.Some? ==> IdealOutcome(sc, cmd, outcome.value))
        && (outcome.None? ==> Willing(cmd, sc))
    {
      hide Quiet, FaultFree, Obeyed, AnswerArrivals, Judge, Budget, Confirmed, ValidSettings, Evidence, WillBring;
      var verdict := Attempt(cmd);
      if verdict.Raised? {
        return Some(Err(verdict.error));
      }
      if verdict.Replied? {
        return Some(Ok(verdict.response));
      }
      if verdict.TimedOut? {
        counters := counters.(timeouts := counters.timeouts + 1);
      }
      if last {
        return Some(Err(if verdict.TimedOut? then TimeoutError else ProtocolError));
      }
      ghost var before := queue;
      if old(Willing(cmd, sc)) {
        CalmExpects();
      }
      var failed := Suspend(before);  // sleep of 0.03 s
      if old(Willing(cmd, sc)) {
        ExpectsCalm(before);
      }
      outcome := if failed && !shielded then Some(Err(Cancelled)) else None;
    }

    /** A fault-free scanner that either cannot hear the command or will confirm it. */
    ghost predicate Willing(cmd: Command, sc: Scanner)
      reads this`link, this`reading, this`state, framer`buffer
    {
      Ideal() && state != Streaming && link.scanner == Some(sc) && Cooperates(sc, cmd)
    }

    /** The retry loop of `command`. */
    method AttemptAll(cmd: Command, ghost sc: Scanner) returns (r: Result<Response>, ghost attempts: seq<Action>)
      requires QueueOk() && Built(cmd) && ValidSettings(settings)
      modifies this`queue, this`counters, this`arrived, this`state, this`reading, this`now, this`link, this`waited, this`run, framer
      ensures QueueOk() && old(arrived) <= arrived
      ensures link == old(link).(script := link.script, inbound := link.inbound, scanner := link.scanner)
      ensures run == old(run) + attempts && AreAttempts(cmd, attempts, |old(arrived)|) && 1 <= |attempts| <= cmd.attempts
      ensures r.Ok? ==> Evidence(attempts[|attempts| - 1].mark, cmd, r.value)
      ensures waited - old(waited) <= Times(cmd.attempts, settings.ackTimeout + Budget(cmd))
      ensures old(Willing(cmd, sc)) ==>
        FaultFree(sc) && state == old(state) && IdealOutcome(sc, cmd, r) && (old(Deaf()) ==> Deaf())
    {
      BudgetPositive(cmd, settings);
      ghost var per := settings.ackTimeout + Budget(cmd);
      assert per > 0.0 && cmd.attempts >= 1;
      hide FaultFree, Evidence, Budget, ValidSettings, IdealOutcome, Willing, QueueOk, Built, Times, Deaf, Trail;
      TimesSucc(0, per);
      attempts := [];
      TrailBegins(cmd, |arrived|);
      AppendNothing(run);
      var attempt := 0;
      while true
        invariant 0 <= attempt < cmd.attempts && |attempts| == attempt
        invariant QueueOk() && old(arrived) <= arrived
        invariant link == old(link).(script := link.script, inbound := link.inbound, scanner := link.scanner)
        invariant run == old(run) + attempts && Trail(cmd, attempts, |old(arrived)|, |arrived|)
        invariant waited - old(waited) <= Times(attempt, per)
        invariant old(Willing(cmd, sc)) ==> Willing(cmd, sc) && state == old(state) && (old(Deaf()) ==> Deaf())
        decreases cmd.attempts - attempt
      {
        TimesSucc(attempt, per);
        TimesGrows(attempt + 1, cmd.attempts, per);
        ghost var wrote := Wrote(cmd.name, cmd.payload, |arrived|);
        Regroup(old(run), attempts, [wrote]);
        var outcome;
        outcome := Round(cmd, attempt + 1 == cmd.attempts, sc);
        TrailGoesOn(cmd, attempts, |old(arrived)|, wrote, |arrived|);
        attempts := attempts + [wrote];
        if outcome.Some? {
          return outcome.value, attempts;
        }
        attempt := attempt + 1;
      }
    }

    /** `command`; `attempts` are the telegrams it wrote. */
    method Execute(cmd: Command, ghost sc: Scanner) returns (r: Result<Response>, ghost attempts: seq<Action>)
      requires QueueOk() && Built(cmd) && ValidSettings(settings)
      modifies this`queue, this`counters, this`arrived, this`state, this`reading, this`now, this`link, this`waited
      modifies this`run, this`changed, framer
      ensures QueueOk() && old(arrived) <= arrived
      ensures link == old(link).(script := link.script, inbound := link.inbound, scanner := link.scanner)
      // at most `attempts` telegrams, none where writing is refused; a mutating command at most one
      ensures run == old(run) + attempts + (if r.Ok? then [Obtained(cmd.name, r.value)] else [])
      ensures AreAttempts(cmd, attempts, |old(arrived)|) && |attempts| <= cmd.attempts
      ensures cmd.mutates && !WriteAllowed(settings) ==> attempts == [] && r == Err(ValueError) && changed == old(changed)
      ensures !(cmd.mutates && !WriteAllowed(settings)) ==> attempts != [] && changed == (old(changed) || cmd.mutates)
      // success only on a confirmed matching reply behind an ACK, both behind the drain of the last attempt
      ensures r.Ok? ==> attempts != [] && Evidence(attempts[|attempts| - 1].mark, cmd, r.value)
      // however many events arrive, the total wait is bounded
      ensures waited - old(waited) <= Times(cmd.attempts, settings.ackTimeout + Budget(cmd))
      ensures old(Willing(cmd, sc)) && (cmd.mutates ==> WriteAllowed(settings)) ==>
        FaultFree(sc) && state == old(state) && IdealOutcome(sc, cmd, r) && (old(Deaf()) ==> Deaf())
    {
      BudgetPositive(cmd, settings);
      TimesGrows(0, cmd.attempts, settings.ackTimeout + Budget(cmd));
      TimesSucc(0, settings.ackTimeout + Budget(cmd));
      NoAttempts(cmd, |arrived|);
      hide FaultFree, Evidence, Budget, WriteAllowed, IdealOutcome, Willing;
      hide Times, Built, ValidSettings, QueueOk, AreAttempts, Deaf;
      if cmd.mutates {
        if !WriteAllowed(settings) {
          AppendNothing(run);
          return Err(ValueError), [];
        }
        changed := true;
      }
      r, attempts := AttemptAll(cmd, sc);
      AppendNothing(run);
      if r.Ok? {
        run := run + [Obtained(cmd.name, r.value)];
      }
    }
  }

  lemma NoAttempts(cmd: Command, from: nat)
    ensures AreAttempts(cmd, [], from)
  {
  }

  /** The attempts so far, all drained when no more than `now` events had arrived. */
  predicate Trail(cmd: Command, attempts: seq<Action>, from: nat, now: nat) {
    && AreAttempts(cmd, attempts, from)
    && (attempts == [] ==> now == from)
    && (attempts != [] ==> attempts[|attempts| - 1].mark <= now)
  }

  lemma TrailBegins(cmd: Command, from: nat)
    ensures Trail(cmd, [], from, from)
  {
  }

  lemma TrailGoesOn(cmd: Command, attempts: seq<Action>, from: nat, wrote: Action, now: nat)
    requires wrote.Wrote? && wrote.name == cmd.name && wrote.payload == cmd.payload && wrote.mark <= now
    requires Trail(cmd, attempts, from, wrote.mark)
    ensures Trail(cmd, attempts + [wrote], from, now) && AreAttempts(cmd, attempts + [wrote], from)
  {
  }

  lemma JudgeNothing(cmd: Command)
    ensures Judge(cmd, [], false) == TimedOut && Leftover(cmd, [], false) == []
  {
  }

  /** `n` waits of `per` seconds. */
  ghost function Times(n: nat, per: real): real {
    n as real * per
  }

  lemma TimesSucc(n: nat, per: real)
    ensures Times(n + 1, per) == Times(n, per) + per
    ensures Times(0, per) == 0.0
  {
  }

  lemma TimesGrows(n: nat, m: nat, per: real)
    requires n <= m && per >= 0.0
    ensures Times(n, per) <= Times(m, per)
  {
  }

  lemma RepliedMeans(cmd: Command, event: Arrival, ack: bool, verdict: Verdict)
    requires JudgeOne(cmd, event, ack) == Some(verdict)
    ensures verdict.Replied? ==>
      && ack && event == Reply(verdict.response)
      && verdict.response.command == cmd.responseId && Confirmed(verdict.response, cmd.payload)
  {
  }

  lemma BudgetPositive(cmd: Command, settings: Settings)
    requires Built(cmd) && ValidSettings(settings)
    ensures cmd.timeout * settings.timeoutScale > 0.0 && settings.ackTimeout > 0.0
  {
  }

  lemma TakenFrom(arrivals: seq<Arrival>, was: seq<Arrival>, queue: seq<Arrival>)
    requires |was| <= |arrivals| && was == arrivals[..|was|]
    requires was <= queue && queue[|was|..] <= arrivals[|was|..]
    ensures |queue| <= |arrivals| && queue == arrivals[..|queue|]
    ensures arrivals[|was|..][|queue| - |was|..] == arrivals[|queue|..]
  {
    var more := queue[|was|..];
    assert queue == was + more;
    assert more == arrivals[|was|..][..|more|] == arrivals[|was|..|was| + |more|];
  }

  lemma ProgressMeans(was: Link, link: Link)
    ensures Progress(was, link) ==>
      |link.script| < |was.script| || (link.script == was.script && |link.inbound| < |was.inbound|)
  {
  }

  lemma ProgressOn(a: Link, b: Link, c: Link)
    requires Progress(b, c) && (a == b || Progress(a, b))
    ensures Progress(a, c)
  {
  }

  lemma QuietTail(script: seq<Move>)
    requires script != []
    ensures Quiet(script) ==>
      Quiet(script[1..]) && !script[0].fails && script[0].input.Chunk? && ScanTraffic(script[0].input.bytes)
  {
    hide ScanTraffic;
    assert script[0] in script;
  }

  lemma QuietDelayed(script: seq<Move>, delay: Delay)
    requires script != []
    ensures Quiet(script) ==> Quiet([script[0].(delay := delay)] + script[1..])
  {
    hide ScanTraffic;
    var later := [script[0].(delay := delay)] + script[1..];
    if Quiet(script) {
      forall m | m in later
        ensures !m.fails && m.input.Chunk? && ScanTraffic(m.input.bytes)
      {
        assert script[0] in script;
        if m != later[0] {
          assert m in script;
        }
      }
    }
  }

  // ---------------------------------------------------------------- fragments on the line

  /** Reading one fragment brings the next arrivals, if any are complete. */
  lemma ReadBrings(buffer: Bytes, inbound: seq<Bytes>, arrivals: seq<Arrival>,
                   address: nat, info: Option<DeviceStatus>, config: Option<Bytes>)
    requires WillBring(buffer, inbound, arrivals) && inbound != [] && address <= 1
    ensures var s := Tokens(buffer + inbound[0], 0);
      var more := Arrivals(Reported(s.items), address, info, config);
      && Faultless(Reported(s.items), address, info, config)
      && more <= arrivals && WillBring(s.rest, inbound[1..], arrivals[|more|..])
  {
    hide Arrivals, Faultless, Ordinary, Decide, LineBytes, LineEvents, Expected;
    var pending: seq<Sent> :| OnTheLine(buffer, inbound, pending) && Expected(pending) == arrivals;
    OrdinaryIsSendable(pending);
    var x, y := buffer + inbound[0], Flatten(inbound[1..]);
    Regroup(buffer, inbound[0], y);
    var k := PartOfLine(x, y, pending, 0);
    OrdinaryTraffic(pending[..k], address, info, config);
    assert pending[..k] + pending[k..] == pending;
    ExpectedConcat(pending[..k], pending[k..]);
    assert OnTheLine(Tokens(x, 0).rest, inbound[1..], pending[k..]);
  }

  lemma OrdinaryIsSendable(sent: seq<Sent>)
    requires forall s | s in sent :: Ordinary(s)
    ensures forall s | s in sent :: Sendable(s)
  {
  }

  /** With nothing unread, nothing is to come. */
  lemma NothingToRead(buffer: Bytes, arrivals: seq<Arrival>)
    requires WillBring(buffer, [], arrivals)
    ensures arrivals == [] && buffer == []
  {
    hide Ordinary, Decide, SentBytes;
    var pending: seq<Sent> :| OnTheLine(buffer, [], pending) && Expected(pending) == arrivals;
    OrdinaryIsSendable(pending);
    AppendNothing(buffer);
    if pending != [] {
      SentDecided(pending[0], LineBytes(pending[1..]));
    }
  }

  lemma QuietLine()
    ensures WillBring([], [], [])
  {
    WaitForFirst();
    assert OnTheLine([], [], []);
  }

  /** What is emitted comes behind everything that is on its way. */
  lemma EmitBrings(buffer: Bytes, inbound: seq<Bytes>, arrivals: seq<Arrival>, sent: seq<Sent>)
    requires WillBring(buffer, inbound, arrivals) && forall s | s in sent :: Ordinary(s)
    ensures forall s | s in sent :: Sendable(s)
    ensures WillBring(buffer, inbound + Fragments(LineBytes(sent)), arrivals + Expected(sent))
  {
    hide Ordinary, Decide, LineBytes, Expected;
    var pending: seq<Sent> :| OnTheLine(buffer, inbound, pending) && Expected(pending) == arrivals;
    OrdinaryIsSendable(pending);
    OrdinaryIsSendable(sent);
    var more := Fragments(LineBytes(sent));
    FlattenCut(LineBytes(sent), STEPS);
    FlattenConcat(inbound, more);
    Regroup(buffer, Flatten(inbound), Flatten(more));
    LineConcat(pending, sent);
    ExpectedConcat(pending, sent);
    assert OnTheLine(buffer, inbound + more, pending + sent);
  }

  lemma ScanBringsNothing(buffer: Bytes, inbound: seq<Bytes>, arrivals: seq<Arrival>, bytes: Bytes)
    requires WillBring(buffer, inbound, arrivals) && ScanTraffic(bytes)
    ensures WillBring(buffer, inbound + Fragments(bytes), arrivals)
  {
    hide WillBring, LineBytes, Fragments, Expected;
    var sent: seq<Sent> :| (forall s | s in sent :: IsScan(s)) && bytes == LineBytes(sent);
    ScansBringNothing(sent);
    EmitBrings(buffer, inbound, arrivals, sent);
    AppendNothing(arrivals);
  }

  /** What a fault-free scanner sends: ACK and one telegram at its own rate, nothing at another. */
  lemma AnswerSent(sc: Scanner, baud: nat, payload: Bytes, address: nat)
    requires FaultFree(sc) && address <= 1 && 1 <= |payload| <= MAX_PAYLOAD
    ensures var h := WriteScanner(sc, baud, Wire(payload, address));
      && !h.raised
      && h.scanner == (if baud == sc.baud then Obeyed(sc, payload) else sc)
      && (baud == sc.baud ==> h.output == [ACK] + Wire(ReplyTo(sc, payload), 0x81))
      && (baud != sc.baud ==> h.output == [] && Fragments(h.output) == [])
  {
    hide Obeyed, ReplyTo, Wire, WriteScanner, LineBytes;
    if baud == sc.baud {
      hide Fragments;
      FaultFreeAnswers(sc, payload, address);
      LineOfTwo(sc, payload);
    } else {
      DeafWrite(sc, baud, Wire(payload, address));
    }
  }

  lemma DeafWrite(sc: Scanner, baud: nat, data: Bytes)
    requires baud != sc.baud
    ensures WriteScanner(sc, baud, data) == Simulator.Handled(sc, [], false)
  {
  }

  lemma AnswerTail(sc: Scanner, payload: Bytes, output: Bytes)
    requires FaultFree(sc) && output == [ACK] + Wire(ReplyTo(sc, payload), 0x81)
    ensures output[1..] == Wire(ReplyTo(sc, payload), 0x81)
  {
    hide ReplyTo, Wire;
  }

  lemma LineOfTwo(sc: Scanner, payload: Bytes)
    requires FaultFree(sc)
    ensures LineBytes([Byte06, Message(0x81, ReplyTo(sc, payload))]) == [ACK] + Wire(ReplyTo(sc, payload), 0x81)
  {
    hide ReplyTo, Wire;
    var message := Message(0x81, ReplyTo(sc, payload));
    assert [Byte06, message][1..] == [message];
    LineOfOne(message);
  }

  lemma LineOfOne(s: Sent)
    requires Sendable(s)
    ensures LineBytes([s]) == SentBytes(s)
  {
    assert [s][1..] == [];
    AppendNothing(SentBytes(s));
  }

  lemma AckBrings(buffer: Bytes, inbound: seq<Bytes>)
    requires WillBring(buffer, inbound, [])
    ensures WillBring(buffer, inbound + Fragments([ACK]), [Ack])
  {
    hide WillBring, Fragments;
    LineOfOne(Byte06);
    assert Expected([Byte06]) == [Ack] by {
      assert [Byte06][1..] == [];
    }
    EmitBrings(buffer, inbound, [], [Byte06]);
    AppendNothing([Ack]);
  }

  /** The reply comes behind the ACK, also when a scan lies between them. */
  lemma ReplyBrings(buffer: Bytes, inbound: seq<Bytes>, sc: Scanner, payload: Bytes)
    requires FaultFree(sc) && WillBring(buffer, inbound, [Ack])
    ensures WillBring(buffer, inbound + Fragments(Wire(ReplyTo(sc, payload), 0x81)), AnswerArrivals(sc, payload))
  {
    hide WillBring, Fragments, ReplyTo, Wire, Ordinary;
    AnswerIsOrdinary(sc, payload);
    var message := Message(0x81, ReplyTo(sc, payload));
    var both := [Byte06, message];
    assert message in both && Ordinary(message);
    LineOfOne(message);
    assert both[1..] == [message];
    EmitBrings(buffer, inbound, [Ack], [message]);
    assert Expected(both) == Brings(Byte06) + Expected([message]);
  }
}
