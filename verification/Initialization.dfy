/** `connect`, `initialize` and `_close_unlocked` of state_machine.py. */
module Initialization {
  import opened Bytes
  import opened Framing
  import opened Commands
  import opened Simulator
  import opened StateMachine
  import opened Trace

  // ---------------------------------------------------------------- a fault-free scanner confirms

  function Foreseen(sc: Scanner, cmd: Command): Verdict
    requires FaultFree(sc)
  {
    Judge(cmd, AnswerArrivals(sc, cmd.payload), false)
  }

  lemma JudgeAnswer(sc: Scanner, cmd: Command)
    requires FaultFree(sc)
    requires ReplyTo(sc, cmd.payload)[0] == cmd.responseId != 0x92
    ensures var reply := ReplyTo(sc, cmd.payload);
      var r := Response(reply[0], reply[1..|reply| - 1], reply[|reply| - 1], Frame(0x81, reply, Wire(reply, 0x81)));
      Foreseen(sc, cmd) == if Confirmed(r, cmd.payload) then Replied(r) else Raised(DeviceError)
  {
    hide Wire, React, Confirmed;
    var events := AnswerArrivals(sc, cmd.payload);
    assert events[1..][0] == events[1];
    assert Judge(cmd, events, false) == Judge(cmd, events[1..], true);
  }

  lemma StatusConfirmed(sc: Scanner)
    requires FaultFree(sc)
    ensures Foreseen(sc, STATUS).Replied? && DecodeStatus(Foreseen(sc, STATUS).response) == Ok(Report(sc))
    ensures Obeyed(sc, STATUS.payload) == sc
  {
    hide StatusData, Commands.DecodeStatus, Wire;
    var reply := ReplyTo(sc, STATUS.payload);
    assert reply == [0xB1] + StatusData(sc) + [sc.status];
    assert reply[1..|reply| - 1] == StatusData(sc);
    JudgeAnswer(sc, STATUS);
    StatusReadsBack(sc, Frame(0x81, reply, Wire(reply, 0x81)));
  }

  lemma TypeConfirmed(sc: Scanner)
    requires FaultFree(sc)
    ensures Foreseen(sc, TYPE).Replied? && Obeyed(sc, TYPE.payload) == sc
    ensures var data := Foreseen(sc, TYPE).response.data; Ascii(data) && SupportedModel(data)
  {
    hide StatusData, Wire;
    var reply := ReplyTo(sc, TYPE.payload);
    assert reply == [0xBA] + IDENTITY + [sc.status];
    assert reply[1..|reply| - 1] == IDENTITY;
    JudgeAnswer(sc, TYPE);
  }

  lemma ConfigurationConfirmed(sc: Scanner)
    requires FaultFree(sc)
    ensures Foreseen(sc, CONFIGURATION).Replied? && Foreseen(sc, CONFIGURATION).response.data == sc.config
    ensures Obeyed(sc, CONFIGURATION.payload) == sc
  {
    hide StatusData, Wire;
    var reply := ReplyTo(sc, CONFIGURATION.payload);
    assert reply == [0xF4] + sc.config + [sc.status];
    assert reply[1..|reply| - 1] == sc.config;
    JudgeAnswer(sc, CONFIGURATION);
  }

  lemma ModeConfirmed(sc: Scanner, cmd: Command)
    requires FaultFree(sc) && cmd.responseId == 0xA0 && React(sc, cmd.payload).reply == [0xA0, 0]
    ensures Foreseen(sc, cmd).Replied?
  {
    hide StatusData, Wire, React;
    var reply := ReplyTo(sc, cmd.payload);
    assert reply == [0xA0, 0, sc.status];
    assert reply[1..|reply| - 1] == [0];
    JudgeAnswer(sc, cmd);
  }

  lemma OnRequestConfirmed(sc: Scanner)
    requires FaultFree(sc)
    ensures Foreseen(sc, ON_REQUEST).Replied? && Obeyed(sc, ON_REQUEST.payload) == sc.(mode := 0x25)
    ensures Foreseen(sc, CONTINUOUS).Replied? && Obeyed(sc, CONTINUOUS.payload) == sc.(mode := 0x24)
  {
    ModeConfirmed(sc, ON_REQUEST);
    ModeConfirmed(sc, CONTINUOUS);
    hide StatusData, Wire, AnswerArrivals, Judge;
  }

  lemma InstallationConfirmed(sc: Scanner)
    requires FaultFree(sc)
    ensures InstallationMode(SICK_LMS).Ok?
    ensures var cmd := InstallationMode(SICK_LMS).value;
      Foreseen(sc, cmd).Replied? && Obeyed(sc, cmd.payload) == sc.(mode := 0)
  {
    hide StatusData, Wire, AnswerArrivals, Judge;
    assert forall c | c in SICK_LMS :: PasswordChar(c);
    var cmd := InstallationMode(SICK_LMS).value;
    assert cmd.payload[2..] == SICK_LMS;
    ModeConfirmed(sc, cmd);
  }

  lemma BaudConfirmed(sc: Scanner, baud: nat)
    requires FaultFree(sc) && baud in BAUD_RATES
    ensures var cmd := ChangeBaud(baud).value;
      Foreseen(sc, cmd).Replied? && Obeyed(sc, cmd.payload) == sc.(baud := baud)
  {
    hide StatusData, Wire, AnswerArrivals, Judge;
    ModeConfirmed(sc, ChangeBaud(baud).value);
  }

  lemma VariantReply(sc: Scanner, angle: nat, resolution: nat)
    requires FaultFree(sc) && ValidGeometry(angle, resolution) && (sc.mode == 0 || sc.mode == 0x25)
    ensures var payload := Variant(angle, resolution).value.payload;
      && |payload| == 5 && ReplyTo(sc, payload) == [0xBB, 1] + payload[1..] + [sc.status]
      && Obeyed(sc, payload) == sc.(angle := angle, resolution := resolution)
  {
    hide StatusData, Wire;
    var payload := Variant(angle, resolution).value.payload;
    assert payload == [0x3B, angle % 256, angle / 256, resolution % 256, resolution / 256];
  }

  lemma VariantConfirmed(sc: Scanner, angle: nat, resolution: nat)
    requires FaultFree(sc) && ValidGeometry(angle, resolution) && (sc.mode == 0 || sc.mode == 0x25)
    ensures var cmd := Variant(angle, resolution).value;
      && Foreseen(sc, cmd).Replied?
      && Obeyed(sc, cmd.payload) == sc.(angle := angle, resolution := resolution)
  {
    hide StatusData, Wire, React, Foreseen, Obeyed, ReplyTo;
    VariantReply(sc, angle, resolution);
    var cmd := Variant(angle, resolution).value;
    var payload := cmd.payload;
    var reply := ReplyTo(sc, payload);
    assert reply[1..|reply| - 1] == [1] + payload[1..];
    assert ([1] + payload[1..])[1..] == payload[1..];
    JudgeAnswer(sc, cmd);
  }

  lemma StoreConfirmed(sc: Scanner, raw: Bytes)
    requires FaultFree(sc) && IsConfiguration(raw) && sc.mode == 0
    ensures var cmd := StoreConfiguration(raw).value;
      Foreseen(sc, cmd).Replied? && Obeyed(sc, cmd.payload) == sc.(config := raw)
  {
    hide StatusData, Wire;
    var cmd := StoreConfiguration(raw).value;
    var payload := cmd.payload;
    assert payload[1..] == raw;
    var reply := ReplyTo(sc, payload);
    assert reply == [0xF7, 1] + raw + [sc.status];
    assert reply[1..|reply| - 1] == [1] + raw;
    assert ([1] + raw)[1..] == raw;
    JudgeAnswer(sc, cmd);
  }

  /** No confirmed command takes a scanner out of the fault-free states. */
  lemma StaysFaultFree(sc: Scanner, mode: Byte, baud: nat, angle: nat, resolution: nat, raw: Bytes)
    requires FaultFree(sc)
    ensures FaultFree(sc.(mode := mode)) && IsConfiguration(sc.config)
    ensures baud in BAUD_RATES ==> FaultFree(sc.(baud := baud))
    ensures ValidGeometry(angle, resolution) ==> FaultFree(sc.(angle := angle, resolution := resolution))
    ensures IsConfiguration(raw) && LegalUnit(raw) ==> FaultFree(sc.(config := raw))
  {
  }

  // ---------------------------------------------------------------- the program

  /** The trace of the present run agrees with the device, and nothing forbidden has happened. */
  ghost predicate Booked(t: Terms, outset: Outset, run: seq<Action>, arrived: seq<Arrival>, changed: bool, open: bool) {
    && After(t, run).safe && outset.arrived <= arrived && Grounded(run, arrived)
    && changed == (outset.changed || After(t, run).tally.mutated)
    && open == (outset.open || Opened in run)
  }

  ghost function TermsOf(d: Device): Terms
    reads d`outset
  {
    Terms(d.settings, d.outset.configuration)
  }

  /** The account of the present run. */
  ghost function Account(d: Device): Monitor
    reads d`outset, d`run
  {
    After(TermsOf(d), d.run)
  }

  ghost predicate Fit(d: Device)
    reads d`queue, d`arrived, d`run, d`outset, d`changed, d`open, d`configuration
  {
    && d.QueueOk() && ValidSettings(d.settings)
    && Booked(TermsOf(d), d.outset, d.run, d.arrived, d.changed, d.open)
    && (d.configuration.Some? ==> IsConfiguration(d.configuration.value))
  }

  lemma FitIsSafe(d: Device)
    requires Fit(d)
    ensures Account(d).safe
  {
  }

  /** A calm line to the fault-free scanner `sc`. */
  ghost predicate Attached(d: Device, sc: Scanner)
    reads d`link, d`reading, d`state, d.framer`buffer
  {
    d.Calm() && d.link.scanner == Some(sc) && FaultFree(sc) && d.state != Streaming
  }

  /** ... with nothing on it as long as the rates differ. */
  ghost predicate Linked(d: Device, sc: Scanner)
    reads d`link, d`reading, d`state, d.framer`buffer
  {
    Attached(d, sc) && (d.link.baud != sc.baud ==> d.Deaf())
  }

  /** ... and both ends use the same baud rate. */
  ghost predicate OnLine(d: Device, sc: Scanner)
    reads d`link, d`reading, d`state, d.framer`buffer
  {
    Attached(d, sc) && d.link.baud == sc.baud
  }

  /** Nothing is buffered and nothing is unread. */
  ghost predicate Blank(d: Device)
    reads d`link, d.framer`buffer
  {
    d.link.inbound == [] && d.framer.buffer == []
  }

  /** `command`, with its place in the account and its effect on a fault-free scanner that confirms it. */
  method Issue(d: Device, cmd: Command, ghost sc: Scanner) returns (r: Result<Response>)
    requires Fit(d) && Built(cmd) && (cmd.mutates ==> WriteAllowed(d.settings))
    requires Allowed(TermsOf(d), Account(d), cmd.name, cmd.payload)
    modifies d`queue, d`counters, d`arrived, d`state, d`reading, d`now, d`link, d`waited, d`run, d`changed, d.framer
    ensures Fit(d)
    ensures d.link == old(d.link).(script := d.link.script, inbound := d.link.inbound, scanner := d.link.scanner)
    ensures var m := AfterWrite(TermsOf(d), old(Account(d)), cmd.name, cmd.payload);
      Account(d) == if r.Ok? then AfterReply(TermsOf(d), m, cmd.name, r.value) else m
    ensures old(Linked(d, sc)) && old(d.link.baud) != sc.baud ==>
      r == Err(TimeoutError) && Linked(d, sc) && d.state == old(d.state)
    ensures old(OnLine(d, sc)) && Foreseen(sc, cmd).Replied? ==>
      && r == Ok(Foreseen(sc, cmd).response) && d.state == old(d.state)
      && d.Calm() && d.link.scanner == Some(Obeyed(sc, cmd.payload))
  {
    hide Quiet, WillBring, Obeyed, AnswerArrivals, Judge, FaultFree, ValidSettings, WriteAllowed;
    hide Booked, After, AfterWrite, AfterReply, Allowed, AreAttempts, Built;
    ghost var run, arrived, changed := d.run, d.arrived, d.changed;
    ghost var attempts;
    r, attempts := d.Execute(cmd, sc);
    AfterCommand(TermsOf(d), run, cmd, attempts, |arrived|, r);
    BookedCommand(TermsOf(d), d.outset, run, arrived, d.arrived, changed, d.open, cmd, attempts, r);
  }

  lemma BookedCommand(t: Terms, outset: Outset, run: seq<Action>, arrived: seq<Arrival>, later: seq<Arrival>,
                      changed: bool, open: bool, cmd: Command, attempts: seq<Action>, r: Result<Response>)
    requires Booked(t, outset, run, arrived, changed, open) && Built(cmd) && arrived <= later
    requires Allowed(t, After(t, run), cmd.name, cmd.payload)
    requires AreAttempts(cmd, attempts, |arrived|) && 1 <= |attempts| <= cmd.attempts
    requires r.Ok? ==> Vouched(later, attempts[|attempts| - 1].mark, cmd.responseId, cmd.payload, r.value)
    ensures Booked(t, outset, run + attempts + (if r.Ok? then [Obtained(cmd.name, r.value)] else []), later,
                   changed || cmd.mutates, open)
  {
    hide After, AfterWrite, AfterReply, Allowed, Vouched, Grounded;
    var tail := if r.Ok? then [Obtained(cmd.name, r.value)] else [];
    AfterCommand(t, run, cmd, attempts, |arrived|, r);
    CommandKeepsSafe(t, After(t, run), cmd, r);
    GroundedLater(run, arrived, later);
    GroundedCommand(later, cmd, attempts, |arrived|, r);
    Regroup(run, attempts, tail);
    GroundedConcat(run, attempts + tail, later);
  }

  lemma CommandKeepsSafe(t: Terms, m: Monitor, cmd: Command, r: Result<Response>)
    requires Allowed(t, m, cmd.name, cmd.payload) && (cmd.mutates <==> Mutates(cmd.name))
    ensures var n := AfterWrite(t, m, cmd.name, cmd.payload);
      var k := if r.Ok? then AfterReply(t, n, cmd.name, r.value) else n;
      k.safe == m.safe && k.tally.mutated == (m.tally.mutated || cmd.mutates)
  {
    hide Allowed, Matched, DecodeStatus;
  }

  lemma BookedLater(t: Terms, outset: Outset, run: seq<Action>, arrived: seq<Arrival>, later: seq<Arrival>,
                    changed: bool, open: bool)
    requires Booked(t, outset, run, arrived, changed, open) && arrived <= later
    ensures Booked(t, outset, run, later, changed, open)
  {
    hide After, Grounded;
    GroundedLater(run, arrived, later);
  }

  lemma BookedOpened(t: Terms, outset: Outset, run: seq<Action>, arrived: seq<Arrival>, changed: bool)
    requires Booked(t, outset, run, arrived, changed, false)
    ensures Booked(t, outset, run + [Opened], arrived, changed, true)
    ensures After(t, run + [Opened]) == After(t, run)
  {
    AfterSnoc(t, run, Opened);
    hide After, Vouched;
    GroundedConcat(run, [Opened], arrived);
  }

  /** A confirmed reading request is no write that needs permission. */
  lemma ReadIsAllowed(t: Terms, m: Monitor, cmd: Command)
    requires !Mutates(cmd.name)
    ensures Allowed(t, m, cmd.name, cmd.payload) && AfterWrite(t, m, cmd.name, cmd.payload) == m
  {
  }

  /** `_status`. */
  method RequestStatus(d: Device, ghost sc: Scanner) returns (error: Option<Error>)
    requires Fit(d)
    modifies d`queue, d`counters, d`arrived, d`state, d`reading, d`now, d`link, d`waited, d`run, d`changed, d`info, d.framer
    ensures Fit(d)
    ensures Account(d) == old(Account(d)).(status := Account(d).status, stopped := Account(d).stopped)
    ensures d.link == old(d.link).(script := d.link.script, inbound := d.link.inbound, scanner := d.link.scanner)
    ensures error.None? ==> d.info.Some? && d.info == Account(d).status
    ensures old(Linked(d, sc)) && old(d.link.baud) != sc.baud ==> error == Some(TimeoutError) && Linked(d, sc)
    ensures old(OnLine(d, sc)) ==> error.None? && OnLine(d, sc) && d.info == Some(Report(sc))
  {
    hide Quiet, WillBring, Obeyed, Foreseen, FaultFree, ValidSettings, DecodeStatus, After, Booked;
    if OnLine(d, sc) {
      StatusConfirmed(sc);
    }
    BuildersAreBuilt([], 0, 0, 0, []);
    ReadIsAllowed(TermsOf(d), Account(d), STATUS);
    hide Built, Allowed, AfterWrite;
    d.state := RequestingStatus;
    var r := Issue(d, STATUS, sc);
    if r.Err? {
      return Some(r.error);
    }
    var decoded := DecodeStatus(r.value);
    if decoded.Err? {
      return Some(decoded.error);
    }
    d.info := Some(decoded.value);
    error := None;
  }

  /** `await self.transport.set_baud(rate)`. */
  method SetBaud(d: Device, rate: nat, ghost sc: Scanner) returns (failed: bool)
    requires Fit(d)
    modifies d`queue, d`counters, d`arrived, d`state, d`reading, d`now, d`link, d.framer
    ensures Fit(d)
    ensures d.link == old(d.link).(script := d.link.script, inbound := d.link.inbound, baud := d.link.baud)
    ensures !failed ==> d.link.baud == rate
    ensures old(Attached(d, sc)) ==>
      !failed && Attached(d, sc) && d.state == old(d.state) && (old(Blank(d)) ==> Blank(d))
  {
    hide Quiet, WillBring, FaultFree, ValidSettings, After, Booked;
    failed := false;
    if d.link.scanner.None? {  // the simulated scanner's `set_baud` does not suspend
      ghost var arrived := d.arrived;
      failed := d.Suspend([]);
      BookedLater(TermsOf(d), d.outset, d.run, arrived, d.arrived, d.changed, d.open);
    }
    if !failed {
      d.link := d.link.(baud := rate);
    }
  }

  /** The baud detection loop of `connect`. */
  method Detect(d: Device, rates: seq<nat>, ghost sc: Scanner) returns (error: Option<Error>)
    requires Fit(d)
    modifies d`queue, d`counters, d`arrived, d`state, d`reading, d`now, d`link, d`waited, d`run, d`changed, d`info, d.framer
    ensures Fit(d)
    ensures Account(d) == old(Account(d)).(status := Account(d).status, stopped := Account(d).stopped)
    ensures d.link == old(d.link).(script := d.link.script, inbound := d.link.inbound, scanner := d.link.scanner, baud := d.link.baud)
    ensures error.None? ==> d.info.Some?
    ensures old(Attached(d, sc)) && old(Blank(d)) && sc.baud in rates ==>
      error.None? && OnLine(d, sc) && d.info == Some(Report(sc))
  {
    hide Quiet, WillBring, FaultFree, ValidSettings, After, Booked;
    for i := 0 to |rates|
      invariant Fit(d)
      invariant Account(d) == old(Account(d)).(status := Account(d).status, stopped := Account(d).stopped)
      invariant d.link == old(d.link).(script := d.link.script, inbound := d.link.inbound, scanner := d.link.scanner, baud := d.link.baud)
      invariant old(Attached(d, sc)) && old(Blank(d)) && sc.baud in rates ==>
        Attached(d, sc) && Blank(d) && sc.baud in rates[i..]
    {
      var failed := SetBaud(d, rates[i], sc);
      if failed {
        return Some(TransportError);
      }
      d.framer.Reset();
      error := RequestStatus(d, sc);
      if error.None? {
        return;
      }
      if error.value !in {TimeoutError, ProtocolError, DeviceError} {
        return;
      }
    }
    return Some(TimeoutError);
  }

  /** A closed device beside a fault-free scanner it can find. */
  ghost predicate Reachable(d: Device, sc: Scanner)
    reads d`open, d`state, d`link
  {
    && !d.open && d.state != Streaming
    && Quiet(d.link.script) && d.settings.address <= 1
    && d.link.scanner == Some(sc) && FaultFree(sc)
    && sc.baud in RatesToTry(d.settings, d.link.baud, d.canSetBaud)
  }

  /** `self.transport.open()` and starting the reader. */
  method OpenTransport(d: Device, ghost sc: Scanner) returns (failed: bool)
    requires Fit(d) && !d.open
    modifies d`queue, d`counters, d`arrived, d`state, d`reading, d`now, d`link, d`run, d`open, d.framer
    ensures Fit(d) && Account(d) == old(Account(d)) && d.open == !failed
    ensures d.link == old(d.link).(script := d.link.script, inbound := d.link.inbound)
    ensures old(Reachable(d, sc)) ==> !failed && Attached(d, sc) && Blank(d)
  {
    hide FaultFree, ValidSettings, After, Quiet, RatesToTry, Booked, Attached, d.QueueOk;
    failed := AwaitOpen(d);
    if failed {
      return;
    }
    BookedOpened(TermsOf(d), d.outset, d.run, d.arrived, d.changed);
    d.open := true;
    d.run := d.run + [Opened];
    d.reading := true;
    d.state := Detecting;
    if old(Reachable(d, sc)) {
      NewLine(d, sc);
    }
  }

  /** `connect` up to the opened transport: an empty framer, and in the simulator a new queue. */
  method AwaitOpen(d: Device) returns (failed: bool)
    requires Fit(d)
    modifies d`queue, d`counters, d`arrived, d`state, d`reading, d`now, d`link, d.framer
    ensures Fit(d)
    ensures d.link == old(d.link).(script := d.link.script, inbound := d.link.inbound)
    ensures d.link.scanner.Some? ==>
      !failed && d.link == old(d.link).(inbound := []) && d.framer.buffer == []
  {
    hide ValidSettings, After, Booked, d.Expecting, d.Deaf;
    d.framer.Reset();
    d.state := Opening;
    d.reading := false;
    failed := false;
    if d.link.scanner.None? {
      ghost var arrived := d.arrived;
      failed := d.Suspend([]);
      BookedLater(TermsOf(d), d.outset, d.run, arrived, d.arrived, d.changed, d.open);
    } else {
      d.link := d.link.(inbound := []);
    }
  }

  lemma NewLine(d: Device, sc: Scanner)
    requires d.link.scanner == Some(sc) && FaultFree(sc) && Quiet(d.link.script) && d.settings.address <= 1
    requires d.reading && d.link.inbound == [] && d.framer.buffer == [] && d.state != Streaming
    ensures Attached(d, sc) && Blank(d)
  {
    QuietLine();
  }

  /** `Configuration((await self.command(configuration_request())).data)`. */
  method ReadBlock(d: Device, ghost sc: Scanner) returns (error: Option<Error>)
    requires Fit(d)
    modifies d`queue, d`counters, d`arrived, d`state, d`reading, d`now, d`link, d`waited, d`run, d`changed
    modifies d`configuration, d.framer
    ensures Fit(d) && Account(d).tally == old(Account(d)).tally
    ensures d.link == old(d.link).(script := d.link.script, inbound := d.link.inbound, scanner := d.link.scanner)
    ensures error.None? ==>
      && d.configuration.Some? && IsConfiguration(d.configuration.value)
      && Account(d).config == d.configuration && Account(d).status.None?
      && Account(d).base == if Account(d).tally.mutated then old(Account(d)).base else d.configuration
    ensures old(OnLine(d, sc)) ==> error.None? && OnLine(d, sc) && d.configuration == Some(sc.config)
  {
    hide Quiet, WillBring, Obeyed, Foreseen, ValidSettings, After, FaultFree, Booked;
    if OnLine(d, sc) {
      ConfigurationConfirmed(sc);
      StaysFaultFree(sc, 0, 0, 0, 0, []);
    }
    BuildersAreBuilt([], 0, 0, 0, []);
    ReadIsAllowed(TermsOf(d), Account(d), CONFIGURATION);
    hide Built, Allowed, AfterWrite;
    var config := Issue(d, CONFIGURATION, sc);
    if config.Err? {
      return Some(config.error);
    }
    if !IsConfiguration(config.value.data) {
      return Some(ProtocolError);
    }
    d.configuration := Some(config.value.data);
    error := None;
  }

  /** The reads behind a found baud rate. */
  method Identify(d: Device, ghost sc: Scanner) returns (error: Option<Error>)
    requires Fit(d)
    modifies d`queue, d`counters, d`arrived, d`state, d`reading, d`now, d`link, d`waited, d`run, d`changed
    modifies d`model, d`configuration, d.framer
    ensures Fit(d) && Account(d).tally == old(Account(d)).tally
    ensures d.link == old(d.link).(script := d.link.script, inbound := d.link.inbound, scanner := d.link.scanner)
    ensures error.None? ==>
      && d.model.Some? && d.configuration.Some? && IsConfiguration(d.configuration.value)
      && (!Account(d).tally.mutated ==> Account(d).base == d.configuration)
    ensures old(OnLine(d, sc)) ==>
      && error.None? && OnLine(d, sc)
      && SupportedModel(d.model.value) && d.configuration == Some(sc.config)
  {
    hide ValidSettings, After, SupportedModel, FaultFree, Booked, d.Calm;
    error := ReadModel(d, sc);
    if error.Some? {
      return;
    }
    error := ReadBlock(d, sc);
    if error.None? {
      d.state := Connected;
    }
  }

  method ReadModel(d: Device, ghost sc: Scanner) returns (error: Option<Error>)
    requires Fit(d)
    modifies d`queue, d`counters, d`arrived, d`state, d`reading, d`now, d`link, d`waited, d`run, d`changed, d`model, d.framer
    ensures Fit(d) && Account(d) == old(Account(d))
    ensures d.link == old(d.link).(script := d.link.script, inbound := d.link.inbound, scanner := d.link.scanner)
    ensures error.None? ==> d.model.Some?
    ensures old(OnLine(d, sc)) ==> error.None? && OnLine(d, sc) && SupportedModel(d.model.value)
  {
    hide Quiet, WillBring, Obeyed, Foreseen, ValidSettings, After, Ascii, SupportedModel, FaultFree, Booked;
    if OnLine(d, sc) {
      TypeConfirmed(sc);
    }
    BuildersAreBuilt([], 0, 0, 0, []);
    ReadIsAllowed(TermsOf(d), Account(d), TYPE);
    hide Built, Allowed, AfterWrite;
    d.state := Connected;
    var identity := Issue(d, TYPE, sc);
    if identity.Err? {
      return Some(identity.error);
    }
    if !Ascii(identity.value.data) {
      return Some(ProtocolError);
    }
    d.model := Some(identity.value.data);
    error := None;
  }

  /** `connect` on a transport that is not a replay. */
  method Connect(d: Device, ghost sc: Scanner) returns (error: Option<Error>)
    requires Fit(d)
    modifies d`queue, d`counters, d`arrived, d`state, d`reading, d`now, d`link, d`waited, d`run, d`changed
    modifies d`open, d`info, d`model, d`configuration, d.framer
    ensures Fit(d) && Account(d).tally == old(Account(d)).tally
    ensures old(d.open) ==> error.None? && d.open && d.run == old(d.run) && d.configuration == old(d.configuration)
    ensures error.None? && !old(d.open) ==>
      && d.open && d.info.Some? && d.model.Some?
      && d.configuration.Some? && IsConfiguration(d.configuration.value)
      && (!Account(d).tally.mutated ==> Account(d).base == d.configuration)
    ensures old(Reachable(d, sc)) ==>
      && error.None? && OnLine(d, sc)
      && d.info == Some(Report(sc)) && SupportedModel(d.model.value) && d.configuration == Some(sc.config)
  {
    hide Quiet, WillBring, FaultFree, ValidSettings, After, SupportedModel, Booked;
    if d.open {
      return None;
    }
    var rates := RatesToTry(d.settings, d.link.baud, d.canSetBaud);
    var failed := OpenTransport(d, sc);
    if failed {
      return Some(TransportError);
    }
    error := Detect(d, rates, sc);
    if error.Some? {
      return;
    }
    if d.info.value.baud != d.link.baud {
      return Some(ProtocolError);
    }
    error := Identify(d, sc);
  }

  // ---------------------------------------------------------------- initialize

  /** A mutating command whose reply carries nothing but the confirmation. */
  method Order(d: Device, cmd: Command, ghost sc: Scanner) returns (error: Option<Error>)
    requires Fit(d) && Built(cmd) && cmd.mutates && WriteAllowed(d.settings)
    requires Allowed(TermsOf(d), Account(d), cmd.name, cmd.payload)
    modifies d`queue, d`counters, d`arrived, d`state, d`reading, d`now, d`link, d`waited, d`run, d`changed, d.framer
    ensures Fit(d)
    ensures d.link == old(d.link).(script := d.link.script, inbound := d.link.inbound, scanner := d.link.scanner)
    ensures error.None? ==> Account(d) == AfterOrder(TermsOf(d), old(Account(d)), cmd.name, cmd.payload)
    ensures old(OnLine(d, sc)) && Foreseen(sc, cmd).Replied? ==>
      error.None? && d.Calm() && d.link.scanner == Some(Obeyed(sc, cmd.payload)) && d.state == old(d.state)
  {
    hide Quiet, WillBring, Obeyed, Foreseen, FaultFree, ValidSettings, After, Booked, WriteAllowed;
    hide AfterWrite, AfterReply, AfterOrder, Allowed;
    ghost var before := Account(d);
    var r := Issue(d, cmd, sc);
    if r.Ok? {
      OrderIsWrite(TermsOf(d), before, cmd, r.value);
    }
    error := if r.Ok? then None else Some(r.error);
  }

  /** The account behind a confirmed order; what the reply says besides does not matter. */
  function AfterOrder(t: Terms, m: Monitor, name: Name, payload: Bytes): Monitor {
    var n := AfterWrite(t, m, name, payload);
    match name
    case Installation => n.(tally := n.tally.(installed := true))
    case OnRequest => n.(stopped := Matched(t, n))
    case _ => n
  }

  lemma OrderIsWrite(t: Terms, m: Monitor, cmd: Command, r: Response)
    requires Built(cmd) && cmd.mutates
    ensures AfterReply(t, AfterWrite(t, m, cmd.name, cmd.payload), cmd.name, r) == AfterOrder(t, m, cmd.name, cmd.payload)
  {
    hide Carries, AfterWrite, Matched;
  }

  /** What each order does to a safe account. */
  lemma OrderMeans(t: Terms, m: Monitor, name: Name, payload: Bytes)
    requires m.safe && Allowed(t, m, name, payload)
    ensures var n := AfterOrder(t, m, name, payload); n.base == m.base && n.safe
    ensures var tally := AfterOrder(t, m, name, payload).tally;
      match name
      case Installation => tally == m.tally.(mutated := true, installs := 1, installed := true)
      case BaudRate => tally == m.tally.(mutated := true, bauds := 1)
      case ScanVariant => tally == m.tally.(mutated := true, variants := 1)
      case WriteConfiguration => tally == m.tally.(mutated := true, stores := 1)
      case Continuous => tally == m.tally.(mutated := true, starts := 1)
      case OnRequest => tally == m.tally.(mutated := true)
      case _ => true
    ensures name == OnRequest ==>
      AfterOrder(t, m, name, payload) == m.(tally := m.tally.(mutated := true), stopped := Matched(t, m))
    ensures name == Continuous ==>
      AfterOrder(t, m, name, payload) == m.(tally := m.tally.(mutated := true, starts := 1))
  {
    hide Asks, ReadsBack, Plan;
  }

  /** The checks behind `connect` and the stop of any stream that is still running. */
  method CheckAndStop(d: Device, ghost sc: Scanner) returns (error: Option<Error>)
    requires Fit(d) && WriteAllowed(d.settings)
    modifies d`queue, d`counters, d`arrived, d`state, d`reading, d`now, d`link, d`waited, d`run, d`changed, d.framer
    ensures Fit(d)
    ensures error.None? ==>
      && d.info.Some? && d.configuration.Some? && Account(d).base == old(Account(d)).base
      && Account(d).tally == old(Account(d)).tally.(mutated := true)
    ensures old(OnLine(d, sc)) && d.info == Some(Report(sc)) && d.configuration == Some(sc.config)
            && d.model.Some? && SupportedModel(d.model.value) ==>
      error.None? && OnLine(d, sc.(mode := 0x25))
  {
    hide Quiet, WillBring, ValidSettings, After, SupportedModel, WriteAllowed, FaultFree, Booked;
    if d.info.None? || d.configuration.None? {
      return Some(AssertionError);
    }
    if d.info.value.deviceError != 0 {
      return Some(DeviceError);
    }
    if d.model.None? || !SupportedModel(d.model.value) {
      return Some(DeviceError);
    }
    error := StopStream(d, sc);
  }

  /** Installation mode, entered only if something has to be changed. */
  method EnterInstallation(d: Device, needed: bool, ghost sc: Scanner) returns (error: Option<Error>)
    requires Fit(d) && WriteAllowed(d.settings) && Account(d).tally == NOTHING.(mutated := true)
    modifies d`queue, d`counters, d`arrived, d`state, d`reading, d`now, d`link, d`waited, d`run, d`changed, d.framer
    ensures Fit(d)
    ensures d.link == old(d.link).(script := d.link.script, inbound := d.link.inbound, scanner := d.link.scanner)
    ensures error.None? ==>
      && Account(d).tally == NOTHING.(mutated := true, installs := if needed then 1 else 0, installed := needed)
      && Account(d).base == old(Account(d)).base
    ensures old(OnLine(d, sc)) && d.settings.password == SICK_LMS ==>
      error.None? && OnLine(d, if needed then sc.(mode := 0) else sc)
  {
    hide Quiet, WillBring, Obeyed, Foreseen, ValidSettings, After, WriteAllowed, Booked, AfterOrder;
    if !needed {
      return None;
    }
    if OnLine(d, sc) {
      InstallationConfirmed(sc);
    }
    d.state := EnteringInstallation;
    var built := InstallationMode(d.settings.password);
    if built.Err? {
      return Some(built.error);
    }
    BuildersAreBuilt(d.settings.password, 0, 0, 0, []);
    FitIsSafe(d);
    OrderMeans(TermsOf(d), Account(d), Installation, built.value.payload);
    hide Built;
    error := Order(d, built.value, sc);
  }

  /** The host follows the scanner to the new rate and asks for its status there. */
  method FollowBaud(d: Device, target: nat, ghost sc: Scanner) returns (error: Option<Error>)
    requires Fit(d)
    modifies d`queue, d`counters, d`arrived, d`state, d`reading, d`now, d`link, d`waited, d`run, d`changed, d`info, d.framer
    ensures Fit(d) && (error.None? ==> d.info.Some?)
    ensures Account(d) == old(Account(d)).(status := Account(d).status, stopped := Account(d).stopped)
    ensures old(Attached(d, sc)) && sc.baud == target ==> error.None? && OnLine(d, sc)
  {
    hide Quiet, WillBring, After, FaultFree, ValidSettings, Booked;
    var failed := SetBaud(d, target, sc);
    if failed {
      return Some(TransportError);
    }
    error := RequestStatus(d, sc);
    if error.None? && d.info.value.baud != target {
      error := Some(ProtocolError);
    }
  }

  /** Change of the baud rate at both ends, confirmed by a status reply at the new rate. */
  method SwitchBaud(d: Device, target: nat, ghost sc: Scanner) returns (error: Option<Error>)
    requires Fit(d) && WriteAllowed(d.settings) && Account(d).tally.bauds == 0
    requires target in BAUD_RATES && d.settings.targetBaud == Some(target)
    modifies d`queue, d`counters, d`arrived, d`state, d`reading, d`now, d`link, d`waited, d`run, d`changed, d`info, d.framer
    ensures Fit(d) && (error.None? ==> d.info.Some?)
    ensures error.None? ==>
      Account(d).tally == old(Account(d)).tally.(mutated := true, bauds := 1) && Account(d).base == old(Account(d)).base
    ensures old(OnLine(d, sc)) ==> error.None? && OnLine(d, sc.(baud := target))
  {
    hide Quiet, WillBring, Obeyed, Foreseen, After, WriteAllowed, FaultFree, Built, ValidSettings, Booked, AfterOrder;
    if OnLine(d, sc) {
      BaudConfirmed(sc, target);
      StaysFaultFree(sc, 0, target, 0, 0, []);
    }
    BuildersAreBuilt([], target, 0, 0, []);
    FitIsSafe(d);
    OrderMeans(TermsOf(d), Account(d), BaudRate, ChangeBaud(target).value.payload);
    hide BAUD_RATES;
    d.state := ChangingBaud;
    error := Order(d, ChangeBaud(target).value, sc);
    if error.Some? {
      return;
    }
    error := FollowBaud(d, target, sc.(baud := target));
  }

  /** The baud rate the scanner ends up with. */
  function FinalBaud(settings: Settings, baud: nat): nat {
    if settings.targetBaud.Some? then settings.targetBaud.value else baud
  }

  method SettleBaud(d: Device, ghost sc: Scanner) returns (error: Option<Error>)
    requires Fit(d) && WriteAllowed(d.settings) && Account(d).tally.bauds == 0 && Account(d).tally.mutated && d.info.Some?
    modifies d`queue, d`counters, d`arrived, d`state, d`reading, d`now, d`link, d`waited, d`run, d`changed, d`info, d.framer
    ensures Fit(d) && (error.None? ==> d.info.Some?)
    ensures error.None? ==>
      && Account(d).tally ==
         old(Account(d)).tally.(bauds := if FinalBaud(d.settings, old(d.link.baud)) != old(d.link.baud) then 1 else 0)
      && Account(d).base == old(Account(d)).base
    ensures old(OnLine(d, sc)) ==> error.None? && OnLine(d, sc.(baud := FinalBaud(d.settings, sc.baud)))
  {
    assert d.settings.targetBaud.Some? ==> d.settings.targetBaud.value in BAUD_RATES;
    hide Quiet, WillBring, After, WriteAllowed, FaultFree, ValidSettings, BAUD_RATES, Booked;
    if d.settings.targetBaud.None? || d.settings.targetBaud.value == d.link.baud {
      assert sc.(baud := sc.baud) == sc;
      return None;
    }
    error := SwitchBaud(d, d.settings.targetBaud.value, sc);
  }

  /** The geometry is written if it differs. */
  method ConfigureGeometry(d: Device, needed: bool, ghost sc: Scanner) returns (error: Option<Error>)
    requires Fit(d) && WriteAllowed(d.settings) && Account(d).tally.mutated
    requires Account(d).tally.variants == 0 && (needed ==> Account(d).tally.installed)
    modifies d`queue, d`counters, d`arrived, d`state, d`reading, d`now, d`link, d`waited, d`run, d`changed, d.framer
    ensures Fit(d)
    ensures error.None? ==>
      && Account(d).tally == old(Account(d)).tally.(variants := if needed then 1 else 0)
      && Account(d).base == old(Account(d)).base
    ensures d.link == old(d.link).(script := d.link.script, inbound := d.link.inbound, scanner := d.link.scanner)
    ensures old(OnLine(d, sc)) && (needed ==> sc.mode == 0) ==>
      && error.None?
      && OnLine(d, if needed then sc.(angle := d.settings.angle, resolution := d.settings.resolution) else sc)
  {
    assert ValidGeometry(d.settings.angle, d.settings.resolution);
    hide Quiet, WillBring, Obeyed, Foreseen, After, WriteAllowed, FaultFree, ValidSettings, Booked, AfterOrder;
    d.state := Configuring;
    if !needed {
      return None;
    }
    VariantOrder(d.settings.angle, d.settings.resolution);
    FitIsSafe(d);
    OrderMeans(TermsOf(d), Account(d), ScanVariant, Variant(d.settings.angle, d.settings.resolution).value.payload);
    hide Built, Variant, Allowed;
    if OnLine(d, sc) && sc.mode == 0 {
      VariantConfirmed(sc, d.settings.angle, d.settings.resolution);
      StaysFaultFree(sc, 0, 0, d.settings.angle, d.settings.resolution, []);
    }
    hide ValidGeometry;
    var cmd := Variant(d.settings.angle, d.settings.resolution).value;
    error := Order(d, cmd, sc);
  }

  lemma VariantOrder(angle: nat, resolution: nat)
    requires ValidGeometry(angle, resolution)
    ensures Variant(angle, resolution).Ok?
    ensures var cmd := Variant(angle, resolution).value;
      && Built(cmd) && cmd.name == ScanVariant && cmd.mutates
      && cmd.payload == [0x3B] + Split(angle) + Split(resolution)
  {
  }

  /** The configuration block is written if it differs. */
  method ConfigureBlock(d: Device, needed: bool, desired: Bytes, ghost sc: Scanner) returns (error: Option<Error>)
    requires Fit(d) && WriteAllowed(d.settings) && Account(d).tally.mutated && IsConfiguration(desired) && LegalUnit(desired)
    requires Planned(d, desired)
    requires Account(d).tally.stores == 0 && (needed ==> Account(d).tally.installed)
    modifies d`queue, d`counters, d`arrived, d`state, d`reading, d`now, d`link, d`waited, d`run, d`changed, d.framer
    ensures Fit(d)
    ensures error.None? ==>
      && Account(d).tally == old(Account(d)).tally.(stores := if needed then 1 else 0)
      && Account(d).base == old(Account(d)).base
    ensures d.link == old(d.link).(script := d.link.script, inbound := d.link.inbound, scanner := d.link.scanner)
    ensures old(OnLine(d, sc)) && (needed ==> sc.mode == 0) ==>
      error.None? && OnLine(d, if needed then sc.(config := desired) else sc)
  {
    hide Quiet, WillBring, Obeyed, Foreseen, After, WriteAllowed, FaultFree, ValidSettings, Booked, AfterOrder, Plan;
    if !needed {
      return None;
    }
    if OnLine(d, sc) && sc.mode == 0 {
      StoreConfirmed(sc, desired);
      StaysFaultFree(sc, 0, 0, 0, 0, desired);
    }
    BuildersAreBuilt([], 0, 0, 0, desired);
    FitIsSafe(d);
    OrderMeans(TermsOf(d), Account(d), WriteConfiguration, StoreConfiguration(desired).value.payload);
    hide Built, Allowed;
    error := Order(d, StoreConfiguration(desired).value, sc);
  }

  /** `desired` is what the settings make of the block that the account starts from. */
  ghost predicate Planned(d: Device, desired: Bytes)
    reads d`outset, d`run
  {
    var base := Account(d).base;
    base.Some? && IsConfiguration(base.value) && desired == Plan(d.settings, base.value)
  }

  /** Read configuration and status again and compare. */
  method Verify(d: Device, desired: Bytes, ghost sc: Scanner) returns (error: Option<Error>)
    requires Fit(d) && IsConfiguration(desired) && Planned(d, desired) && Account(d).tally.mutated
    modifies d`queue, d`counters, d`arrived, d`state, d`reading, d`now, d`link, d`waited, d`run, d`changed
    modifies d`configuration, d`info, d.framer
    ensures Fit(d) && Account(d).tally == old(Account(d)).tally
    ensures error.None? ==>
      && Matched(TermsOf(d), Account(d)) && Account(d).base == old(Account(d)).base
      && Account(d).config == d.configuration == Some(desired) && Account(d).status == d.info
      && d.info.Some? && ReadsBack(d.settings, desired, desired, d.info.value)
    ensures d.link == old(d.link).(script := d.link.script, inbound := d.link.inbound, scanner := d.link.scanner)
    ensures old(OnLine(d, sc)) && ReadsBack(d.settings, desired, sc.config, Report(sc)) ==>
      error.None? && OnLine(d, sc)
  {
    hide Quiet, WillBring, Obeyed, Foreseen, After, FaultFree, ValidSettings, ReadsBack, Booked, Plan;
    d.state := Verifying;
    error := ReadBlock(d, sc);
    if error.Some? {
      return;
    }
    error := RequestStatus(d, sc);
    if error.Some? {
      return;
    }
    if !ReadsBack(d.settings, desired, d.configuration.value, d.info.value) {
      return Some(ProtocolError);
    }
    ReadsBackSame(d.settings, desired, d.configuration.value, d.info.value);
  }

  lemma ReadsBackSame(settings: Settings, desired: Bytes, configuration: Bytes, info: DeviceStatus)
    requires ReadsBack(settings, desired, configuration, info)
    ensures configuration == desired
  {
  }

  /** `operating_mode(Mode.ON_REQUEST)`. */
  method StopStream(d: Device, ghost sc: Scanner) returns (error: Option<Error>)
    requires Fit(d) && WriteAllowed(d.settings)
    modifies d`queue, d`counters, d`arrived, d`state, d`reading, d`now, d`link, d`waited, d`run, d`changed, d.framer
    ensures Fit(d)
    ensures d.link == old(d.link).(script := d.link.script, inbound := d.link.inbound, scanner := d.link.scanner)
    ensures error.None? ==>
      var was := old(Account(d));
      Account(d) == was.(tally := was.tally.(mutated := true), stopped := Matched(TermsOf(d), was))
    ensures old(OnLine(d, sc)) ==> error.None? && OnLine(d, sc.(mode := 0x25)) && d.state == old(d.state)
  {
    hide Quiet, WillBring, Obeyed, Foreseen, After, WriteAllowed, FaultFree, ValidSettings, Booked, AfterOrder, Matched;
    if OnLine(d, sc) {
      StaysFaultFree(sc, 0x25, 0, 0, 0, []);
      OnRequestConfirmed(sc);
    }
    BuildersAreBuilt([], 0, 0, 0, []);
    FitIsSafe(d);
    OrderMeans(TermsOf(d), Account(d), OnRequest, ON_REQUEST.payload);
    hide Built;
    error := Order(d, ON_REQUEST, sc);
  }

  /** `operating_mode(Mode.CONTINUOUS)`. */
  method StartStream(d: Device, ghost sc: Scanner) returns (error: Option<Error>)
    requires Fit(d) && WriteAllowed(d.settings)
    requires Matched(TermsOf(d), Account(d)) && Account(d).stopped && Account(d).tally.starts == 0
    modifies d`queue, d`counters, d`arrived, d`state, d`reading, d`now, d`link, d`waited, d`run, d`changed, d.framer
    ensures Fit(d)
    ensures d.link == old(d.link).(script := d.link.script, inbound := d.link.inbound, scanner := d.link.scanner)
    ensures error.None? ==>
      && d.state == Streaming
      && Account(d) == old(Account(d)).(tally := old(Account(d)).tally.(mutated := true, starts := 1))
    ensures old(OnLine(d, sc)) ==> error.None? && d.Calm() && d.link.scanner == Some(sc.(mode := 0x24))
  {
    hide Quiet, WillBring, Obeyed, Foreseen, After, WriteAllowed, FaultFree, ValidSettings, Booked, AfterOrder, Matched;
    if OnLine(d, sc) {
      OnRequestConfirmed(sc);
    }
    BuildersAreBuilt([], 0, 0, 0, []);
    FitIsSafe(d);
    OrderMeans(TermsOf(d), Account(d), Continuous, CONTINUOUS.payload);
    hide Built;
    d.state := Starting;
    error := Order(d, CONTINUOUS, sc);
    if error.None? {
      d.state := Streaming;
    }
  }

  // ---------------------------------------------------------------- what a successful run leaves behind

  predicate GeometryDiffers(settings: Settings, sc: Scanner) {
    sc.angle != settings.angle || sc.resolution != settings.resolution
  }

  function Desired(settings: Settings, sc: Scanner): Bytes
    requires IsConfiguration(sc.config)
  {
    Updated(sc.config, settings.millimetres, settings.indices)
  }

  predicate BlockDiffers(settings: Settings, sc: Scanner)
    requires IsConfiguration(sc.config)
  {
    Desired(settings, sc) != sc.config
  }

  /** The scanner as the settings ask for it. */
  function Goal(settings: Settings, sc: Scanner, mode: Byte): Scanner
    requires IsConfiguration(sc.config)
  {
    sc.(mode := mode, angle := settings.angle, resolution := settings.resolution,
        config := Desired(settings, sc), baud := FinalBaud(settings, sc.baud))
  }

  /** What is written on the way: each change once, and only where something differs. */
  function Writes(settings: Settings, sc: Scanner): Tally
    requires IsConfiguration(sc.config)
  {
    var geometry, block := GeometryDiffers(settings, sc), BlockDiffers(settings, sc);
    NOTHING.(mutated := true, installs := if geometry || block then 1 else 0, installed := geometry || block,
             bauds := if FinalBaud(settings, sc.baud) != sc.baud then 1 else 0,
             variants := if geometry then 1 else 0, stores := if block then 1 else 0)
  }

  /** `desired`, `geometry_changes` and `changes`, and the commands they call for. */
  method Reconfigure(d: Device, desired: Bytes, geometry: bool, changes: bool, ghost sc: Scanner)
    returns (error: Option<Error>)
    requires Fit(d) && WriteAllowed(d.settings) && Account(d).tally == NOTHING.(mutated := true)
    requires d.info.Some? && IsConfiguration(desired) && LegalUnit(desired) && Planned(d, desired)
    modifies d`queue, d`counters, d`arrived, d`state, d`reading, d`now, d`link, d`waited, d`run, d`changed, d`info, d.framer
    ensures Fit(d)
    ensures error.None? ==>
      && Account(d).base == old(Account(d)).base && Account(d).tally.mutated && Account(d).tally.starts == 0
      && Account(d).tally.variants == (if geometry then 1 else 0) && Account(d).tally.stores == (if changes then 1 else 0)
    ensures old(OnLine(d, sc)) && d.settings.password == SICK_LMS && sc.mode == 0x25
            && desired == Desired(d.settings, sc) && geometry == GeometryDiffers(d.settings, sc)
            && changes == BlockDiffers(d.settings, sc) ==>
      && error.None? && Account(d).tally == Writes(d.settings, sc)
      && OnLine(d, Goal(d.settings, sc, if geometry || changes then 0 else 0x25))
  {
    hide Quiet, WillBring, After, WriteAllowed, ValidSettings, FaultFree, ValidGeometry, LegalUnit, Updated, Plan, Booked;
    error := EnterInstallation(d, geometry || changes, sc);
    if error.Some? {
      return;
    }
    ghost var s2 := if geometry || changes then sc.(mode := 0) else sc;
    error := SettleBaud(d, s2);
    if error.Some? {
      return;
    }
    ghost var s3 := s2.(baud := FinalBaud(d.settings, s2.baud));
    error := ConfigureGeometry(d, geometry, s3);
    if error.Some? {
      return;
    }
    ghost var s4 := if geometry then s3.(angle := d.settings.angle, resolution := d.settings.resolution) else s3;
    error := ConfigureBlock(d, changes, desired, s4);
  }

  /** What a run that has succeeded leaves in the account and in the device. */
  ghost predicate Accomplished(d: Device, startStream: bool)
    reads d`outset, d`run, d`state, d`configuration, d`info
  {
    var m := Account(d);
    && d.state == (if startStream then Streaming else Connected)
    && Matched(TermsOf(d), m) && m.stopped && m.config == d.configuration && m.status == d.info
    && m.tally.starts == (if startStream then 1 else 0)
  }

  /** Verification, the second stop, and the start. */
  method Complete(d: Device, desired: Bytes, startStream: bool, ghost sc: Scanner) returns (error: Option<Error>)
    requires Fit(d) && WriteAllowed(d.settings) && IsConfiguration(desired) && Planned(d, desired)
    requires Account(d).tally.mutated && Account(d).tally.starts == 0
    modifies d`queue, d`counters, d`arrived, d`state, d`reading, d`now, d`link, d`waited, d`run, d`changed
    modifies d`configuration, d`info, d.framer
    ensures Fit(d)
    ensures error.None? ==>
      && Accomplished(d, startStream)
      && Account(d).tally == old(Account(d)).tally.(starts := if startStream then 1 else 0)
    ensures old(OnLine(d, sc)) && ReadsBack(d.settings, desired, sc.config, Report(sc)) ==>
      && error.None? && d.Calm() && d.link.baud == sc.baud
      && d.link.scanner == Some(sc.(mode := if startStream then 0x24 else 0x25))
  {
    hide Quiet, WillBring, After, WriteAllowed, ValidSettings, FaultFree, Booked, Plan, ReadsBack, Matched;
    error := Verify(d, desired, sc);
    if error.Some? {
      return;
    }
    MatchedIgnores(TermsOf(d), Account(d));
    error := StopStream(d, sc);
    if error.Some? {
      return;
    }
    if !startStream {
      d.state := Connected;
      return;
    }
    MatchedIgnores(TermsOf(d), Account(d));
    error := StartStream(d, sc.(mode := 0x25));
  }

  lemma MatchedIgnores(t: Terms, m: Monitor)
    ensures forall tally, stopped :: Matched(t, m.(tally := tally, stopped := stopped)) == Matched(t, m)
    ensures forall tally :: Matched(t, m.(tally := tally)) == Matched(t, m)
  {
  }

  /** From the plan to the stream. */
  method Adjust(d: Device, startStream: bool, ghost sc: Scanner) returns (error: Option<Error>)
    requires Fit(d) && WriteAllowed(d.settings) && Account(d).tally == NOTHING.(mutated := true)
    requires d.info.Some? && d.configuration.Some? && Account(d).base == d.configuration
    modifies d`queue, d`counters, d`arrived, d`state, d`reading, d`now, d`link, d`waited, d`run, d`changed
    modifies d`configuration, d`info, d.framer
    ensures Fit(d)
    ensures error.None? ==> Accomplished(d, startStream)
    ensures old(OnLine(d, sc)) && d.settings.password == SICK_LMS && sc.mode == 0x25
            && old(d.configuration) == Some(sc.config) && old(d.info.value.angle) == sc.angle
            && old(d.info.value.resolution) == sc.resolution ==>
      && error.None? && d.Calm()
      && d.link.scanner == Some(Goal(d.settings, sc, if startStream then 0x24 else 0x25))
      && d.link.baud == FinalBaud(d.settings, sc.baud)
      && Account(d).tally == Writes(d.settings, sc).(starts := if startStream then 1 else 0)
  {
    UpdatedMeaning(d.configuration.value, d.settings.millimetres, d.settings.indices);
    hide Quiet, WillBring, WriteAllowed, ValidSettings, FaultFree, Updated, After, Booked, Accomplished;
    var desired := Updated(d.configuration.value, d.settings.millimetres, d.settings.indices);
    var geometry := d.info.value.angle != d.settings.angle || d.info.value.resolution != d.settings.resolution;
    var changes := desired != d.configuration.value;
    error := Reconfigure(d, desired, geometry, changes, sc);
    if error.Some? {
      return;
    }
    ghost var goal := if IsConfiguration(sc.config) then Goal(d.settings, sc, if geometry || changes then 0 else 0x25) else sc;
    error := Complete(d, desired, startStream, goal);
  }

  lemma StartingModeIgnored(settings: Settings, sc: Scanner, mode: Byte)
    requires IsConfiguration(sc.config)
    ensures var stopped := sc.(mode := 0x25);
      Goal(settings, stopped, mode) == Goal(settings, sc, mode) && Writes(settings, stopped) == Writes(settings, sc)
  {
    hide Updated;
  }

  /** `initialize` up to the point where the stream is stopped. */
  method ConnectAndStop(d: Device, ghost sc: Scanner) returns (error: Option<Error>)
    requires Fit(d) && WriteAllowed(d.settings)
    requires Account(d).tally == NOTHING && Account(d).base == d.configuration
    modifies d`queue, d`counters, d`arrived, d`state, d`reading, d`now, d`link, d`waited, d`run, d`changed
    modifies d`open, d`info, d`model, d`configuration, d.framer
    ensures Fit(d)
    ensures error.None? ==>
      && d.info.Some? && d.configuration.Some?
      && Account(d).tally == NOTHING.(mutated := true) && Account(d).base == d.configuration
    ensures old(Reachable(d, sc)) ==>
      && error.None? && d.open && OnLine(d, sc.(mode := 0x25)) && d.configuration == Some(sc.config)
      && d.info.value.angle == sc.angle && d.info.value.resolution == sc.resolution
  {
    hide Quiet, WillBring, WriteAllowed, ValidSettings, SupportedModel, FaultFree, After, Booked;
    error := Connect(d, sc);
    if error.Some? {
      return;
    }
    error := CheckAndStop(d, sc);
  }

  /** The `try` block of `initialize`. */
  method TryInitialize(d: Device, startStream: bool, ghost sc: Scanner) returns (error: Option<Error>)
    requires Fit(d) && WriteAllowed(d.settings)
    requires d.run == [] && d.outset == Outset(d.changed, d.open, d.configuration, d.arrived)
    modifies d`queue, d`counters, d`arrived, d`state, d`reading, d`now, d`link, d`waited, d`run, d`changed
    modifies d`open, d`info, d`model, d`configuration, d.framer
    ensures Fit(d)
    ensures error.None? ==> Accomplished(d, startStream)
    ensures old(Reachable(d, sc)) && d.settings.password == SICK_LMS ==>
      && error.None? && d.open && d.Calm()
      && d.link.scanner == Some(Goal(d.settings, sc, if startStream then 0x24 else 0x25))
      && d.link.baud == FinalBaud(d.settings, sc.baud)
      && Account(d).tally == Writes(d.settings, sc).(starts := if startStream then 1 else 0)
  {
    assert Account(d).tally == NOTHING && Account(d).base == d.configuration;
    hide Updated, FaultFree, ValidSettings;
    if IsConfiguration(sc.config) {
      StartingModeIgnored(d.settings, sc, if startStream then 0x24 else 0x25);
    }
    hide Quiet, WillBring, WriteAllowed, After, Goal, Writes, FinalBaud, Booked, Accomplished;
    error := ConnectAndStop(d, sc);
    if error.Some? {
      return;
    }
    error := Adjust(d, startStream, sc.(mode := 0x25));
  }

  // ---------------------------------------------------------------- closing

  /** What closing adds to the trace: one stop attempt exactly when a mutating command had begun. */
  ghost predicate IsCleanup(actions: seq<Action>, changed: bool) {
    && |actions| >= 2 && actions[0] == CleanupBegan && actions[|actions| - 1] == Closed
    && if !changed then |actions| == 2 else
         && 3 <= |actions| <= 4
         && actions[1].Wrote? && actions[1].name == OnRequest && actions[1].payload == [0x20, 0x25]
         && (|actions| == 4 ==> actions[2].Obtained? && actions[2].name == OnRequest)
  }

  /** The stop that closing attempts; whatever it raises is swallowed. */
  method AttemptStop(d: Device, ghost sc: Scanner) returns (ghost stop: seq<Action>)
    requires d.QueueOk() && ValidSettings(d.settings) && WriteAllowed(d.settings) && d.state != Streaming
    modifies d`queue, d`counters, d`arrived, d`state, d`reading, d`now, d`link, d`waited, d`run, d`changed, d.framer
    ensures d.QueueOk() && old(d.arrived) <= d.arrived
    ensures d.link == old(d.link).(script := d.link.script, inbound := d.link.inbound, scanner := d.link.scanner)
    ensures d.run == old(d.run) + stop && Grounded(stop, d.arrived) && IsStop(stop) && d.changed
    ensures old(OnLine(d, sc)) ==> |stop| == 2 && d.Calm() && d.link.scanner == Some(sc.(mode := 0x25))
  {
    hide Quiet, WillBring, Obeyed, AnswerArrivals, Judge, FaultFree, ValidSettings, WriteAllowed, Vouched;
    if OnLine(d, sc) {
      OnRequestConfirmed(sc);
    }
    BuildersAreBuilt([], 0, 0, 0, []);
    ghost var before, arrived := d.run, d.arrived;
    ghost var attempts;
    var r;
    r, attempts := d.Execute(ON_REQUEST, sc);
    GroundedCommand(d.arrived, ON_REQUEST, attempts, |arrived|, r);
    stop := attempts + (if r.Ok? then [Obtained(OnRequest, r.value)] else []);
    Regroup(before, attempts, if r.Ok? then [Obtained(OnRequest, r.value)] else []);
  }

  predicate IsStop(stop: seq<Action>) {
    && 1 <= |stop| <= 2
    && stop[0].Wrote? && stop[0].name == OnRequest && stop[0].payload == [0x20, 0x25]
    && (|stop| == 2 ==> stop[1].Obtained? && stop[1].name == OnRequest)
  }

  /** A device between two runs. */
  ghost predicate Ready(d: Device)
    reads d`queue, d`arrived, d`run, d`changed, d`configuration, d`shielded
  {
    && d.QueueOk() && ValidSettings(d.settings) && !d.shielded
    && (d.changed ==> WriteAllowed(d.settings))
    && (d.configuration.Some? ==> IsConfiguration(d.configuration.value))
    && Grounded(d.run, d.arrived)
  }

  /** `_close_unlocked`, with a transport whose `close` does not raise. */
  method CloseUnlocked(d: Device, ghost sc: Scanner) returns (ghost cleanup: seq<Action>)
    requires Ready(d)
    modifies d`queue, d`counters, d`arrived, d`state, d`reading, d`now, d`link, d`waited, d`run, d`changed
    modifies d`open, d`shielded, d.framer
    ensures Ready(d) && !d.open && d.run == old(d.run) + cleanup && old(d.arrived) <= d.arrived
    ensures !old(d.open) ==>
      cleanup == [] && d.state == old(d.state) && d.changed == old(d.changed) && d.link == old(d.link)
    ensures old(d.open) ==> !d.changed && d.state == Disconnected && IsCleanup(cleanup, old(d.changed))
    ensures old(d.open) && old(IdleLine(d, sc)) ==>
      && (old(d.changed) ==> |cleanup| == 4) && d.link.baud == sc.baud && Quiet(d.link.script)
      && d.link.scanner == Some(if old(d.changed) then sc.(mode := 0x25) else sc)
  {
    cleanup := [];
    AppendNothing(d.run);
    if d.open {
      cleanup := CloseOpen(d, sc);
    }
  }

  /** Calm, matching line to a fault-free scanner in any device state. */
  ghost predicate IdleLine(d: Device, sc: Scanner)
    reads d`link, d`reading, d.framer`buffer
  {
    d.Calm() && d.link.scanner == Some(sc) && FaultFree(sc) && d.link.baud == sc.baud
  }

  method CloseOpen(d: Device, ghost sc: Scanner) returns (ghost cleanup: seq<Action>)
    requires Ready(d)
    modifies d`queue, d`counters, d`arrived, d`state, d`reading, d`now, d`link, d`waited, d`run, d`changed
    modifies d`open, d`shielded, d.framer
    ensures Ready(d) && !d.open && d.run == old(d.run) + cleanup && old(d.arrived) <= d.arrived
    ensures !d.changed && d.state == Disconnected && IsCleanup(cleanup, old(d.changed))
    ensures old(IdleLine(d, sc)) ==>
      && (old(d.changed) ==> |cleanup| == 4) && d.link.baud == sc.baud && Quiet(d.link.script)
      && d.link.scanner == Some(if old(d.changed) then sc.(mode := 0x25) else sc)
  {
    hide Quiet, FaultFree, ValidSettings, WriteAllowed, Grounded, IsStop, IsCleanup, d.QueueOk, d.Calm;
    ghost var before, arrived, changed := d.run, d.arrived, d.changed;
    d.state := Stopping;
    d.shielded := true;
    d.run := d.run + [CleanupBegan];
    ghost var stop := StopIfChanged(d, sc);
    ShutDown(d);
    cleanup := [CleanupBegan] + stop + [Closed];
    CleanupShape(stop, changed);
    CleanupGrounded(before, stop, arrived, d.arrived);
  }

  method StopIfChanged(d: Device, ghost sc: Scanner) returns (ghost stop: seq<Action>)
    requires d.QueueOk() && ValidSettings(d.settings) && (d.changed ==> WriteAllowed(d.settings)) && d.state != Streaming
    modifies d`queue, d`counters, d`arrived, d`state, d`reading, d`now, d`link, d`waited, d`run, d`changed, d.framer
    ensures d.QueueOk() && old(d.arrived) <= d.arrived && d.run == old(d.run) + stop && Grounded(stop, d.arrived)
    ensures if old(d.changed) then IsStop(stop) else stop == []
    ensures old(IdleLine(d, sc)) ==>
      && (old(d.changed) ==> |stop| == 2) && d.link.baud == sc.baud && Quiet(d.link.script)
      && d.link.scanner == Some(if old(d.changed) then sc.(mode := 0x25) else sc)
  {
    hide Quiet, FaultFree, ValidSettings, WriteAllowed, Grounded, IsStop, d.Calm;
    if d.changed {
      stop := AttemptStop(d, sc);
    } else {
      stop := [];
      AppendNothing(d.run);
      NothingObtained(d.arrived);
    }
    if d.Calm() {
      CalmIsQuiet(d);
    }
  }

  /** The reader is cancelled, the transport closed, and the fields are reset. */
  method ShutDown(d: Device)
    modifies d`reading, d`open, d`changed, d`shielded, d`state, d`run
    ensures !d.reading && !d.open && !d.changed && !d.shielded && d.state == Disconnected
    ensures d.run == old(d.run) + [Closed]
  {
    d.reading := false;
    d.open := false;
    d.changed := false;
    d.shielded := false;
    d.state := Disconnected;
    d.run := d.run + [Closed];
  }

  lemma CalmIsQuiet(d: Device)
    requires d.Calm()
    ensures Quiet(d.link.script)
  {
  }

  lemma CleanupShape(stop: seq<Action>, changed: bool)
    requires if changed then IsStop(stop) else stop == []
    ensures IsCleanup([CleanupBegan] + stop + [Closed], changed)
  {
  }

  lemma NothingObtained(arrived: seq<Arrival>)
    ensures Grounded([], arrived) && Grounded([CleanupBegan], arrived) && Grounded([Closed], arrived)
  {
  }

  lemma CleanupGrounded(before: seq<Action>, stop: seq<Action>, arrived: seq<Arrival>, later: seq<Arrival>)
    requires Grounded(before, arrived) && arrived <= later && Grounded(stop, later)
    ensures Grounded(before + ([CleanupBegan] + stop + [Closed]), later)
    ensures before + [CleanupBegan] + stop + [Closed] == before + ([CleanupBegan] + stop + [Closed])
  {
    NothingObtained(later);
    hide Grounded;
    GroundedLater(before, arrived, later);
    GroundedConcat([CleanupBegan], stop, later);
    GroundedConcat([CleanupBegan] + stop, [Closed], later);
    GroundedConcat(before, [CleanupBegan] + stop + [Closed], later);
  }

  /** Closing sends one stop exactly when something mutating had begun, and nothing else. */
  lemma CleanupMeaning(actions: seq<Action>, changed: bool)
    requires IsCleanup(actions, changed)
    ensures WritesOf(actions, OnRequest) == (if changed then 1 else 0)
    ensures forall i | 0 <= i < |actions| && actions[i].Wrote? :: actions[i].name == OnRequest
  {
    var n := |actions|;
    assert actions == actions[..n - 1] + [Closed];
    if n > 2 {
      assert actions[..n - 1][..n - 2] == actions[..n - 2];
      if n == 4 {
        assert actions[..2][..1] == actions[..1];
      }
    }
    assert actions[..1] == [CleanupBegan] && WritesOf([CleanupBegan], OnRequest) == 0;
  }

  // ---------------------------------------------------------------- the whole

  /** The terms on which a run of this device begins. */
  function Begins(d: Device): Terms
    reads d`configuration
  {
    Terms(d.settings, d.configuration)
  }

  /**
   `initialize` on a transport that is not a replay.  `body` are the actions of its `try` block and
   `cleanup` those of the closing behind a failure.
   */
  method Initialize(d: Device, startStream: bool, ghost sc: Scanner)
    returns (error: Option<Error>, ghost body: seq<Action>, ghost cleanup: seq<Action>)
    requires Ready(d)
    modifies d, d.framer
    ensures Ready(d) && d.run == old(d.run) + body + cleanup
    ensures !WriteAllowed(d.settings) || old(d.state) == Streaming ==> body == cleanup == []
    ensures !WriteAllowed(d.settings) ==> error == Some(ValueError) && unchanged(d)
    ensures WriteAllowed(d.settings) && old(d.state) == Streaming ==> error.None? && unchanged(d)
    ensures WriteAllowed(d.settings) && old(d.state) != Streaming ==>
      var t := old(Begins(d)); var m := After(t, body);
      && m.safe && Grounded(body, d.arrived)
      && (error.None? ==>
            && cleanup == [] && d.open == (old(d.open) || Opened in body)
            && Matched(t, m) && m.stopped && m.tally.starts == (if startStream then 1 else 0)
            && m.config == d.configuration && m.status == d.info
            && d.changed == (old(d.changed) || m.tally.mutated)
            && d.state == (if startStream then Streaming else Connected))
      && (error.Some? ==>
            && !d.open && d.state == Faulted
            && if old(d.open) || Opened in body then IsCleanup(cleanup, old(d.changed) || m.tally.mutated)
               else cleanup == [])
    ensures WriteAllowed(d.settings) && old(Reachable(d, sc)) && d.settings.password == SICK_LMS ==>
      && error.None? && d.open && d.Calm()
      && d.link.scanner == Some(Goal(d.settings, sc, if startStream then 0x24 else 0x25))
      && d.link.baud == FinalBaud(d.settings, sc.baud)
      && After(old(Begins(d)), body).tally == Writes(d.settings, sc).(starts := if startStream then 1 else 0)
  {
    error, body, cleanup := None, [], [];
    AppendNothing(d.run);
    if !WriteAllowed(d.settings) {
      return Some(ValueError), [], [];
    }
    if d.state == Streaming {
      return;
    }
    hide Ready, Reachable, FinalBaud, WriteAllowed, After, Grounded, Matched, IsCleanup, Goal, Writes, d.Calm;
    error, body, cleanup := InitializeIdle(d, startStream, sc);
  }

  /** The same, once writing is permitted and nothing streams. */
  method InitializeIdle(d: Device, startStream: bool, ghost sc: Scanner)
    returns (error: Option<Error>, ghost body: seq<Action>, ghost cleanup: seq<Action>)
    requires Ready(d) && WriteAllowed(d.settings) && d.state != Streaming
    modifies d, d.framer
    ensures Ready(d) && d.run == old(d.run) + body + cleanup
    ensures
      var t := old(Begins(d)); var m := After(t, body);
      && m.safe && Grounded(body, d.arrived)
      && (error.None? ==>
            && cleanup == [] && d.open == (old(d.open) || Opened in body)
            && Matched(t, m) && m.stopped && m.tally.starts == (if startStream then 1 else 0)
            && m.config == d.configuration && m.status == d.info
            && d.changed == (old(d.changed) || m.tally.mutated)
            && d.state == (if startStream then Streaming else Connected))
      && (error.Some? ==>
            && !d.open && d.state == Faulted
            && if old(d.open) || Opened in body then IsCleanup(cleanup, old(d.changed) || m.tally.mutated)
               else cleanup == [])
    ensures old(Reachable(d, sc)) && d.settings.password == SICK_LMS ==>
      && error.None? && d.open && d.Calm()
      && d.link.scanner == Some(Goal(d.settings, sc, if startStream then 0x24 else 0x25))
      && d.link.baud == FinalBaud(d.settings, sc.baud)
      && After(old(Begins(d)), body).tally == Writes(d.settings, sc).(starts := if startStream then 1 else 0)
  {
    hide Quiet, WillBring, ValidSettings, WriteAllowed, FaultFree, Goal, Writes, After, Grounded, Booked, Matched, IsCleanup;
    hide Reachable, FinalBaud, d.Calm, d.QueueOk;
    ghost var earlier, arrived := d.run, d.arrived;
    d.run := [];
    d.outset := Outset(d.changed, d.open, d.configuration, d.arrived);
    RunBegins(Begins(d), d.outset);
    error, body, cleanup := TryAndClean(d, startStream, sc);
    Regroup(earlier, body, cleanup);
    GroundedLater(earlier, arrived, d.arrived);
    GroundedConcat(earlier, d.run, d.arrived);
    d.run := earlier + d.run;
  }

  /** The `try` block and the closing behind a failure. */
  method TryAndClean(d: Device, startStream: bool, ghost sc: Scanner)
    returns (error: Option<Error>, ghost body: seq<Action>, ghost cleanup: seq<Action>)
    requires Fit(d) && WriteAllowed(d.settings) && !d.shielded
    requires d.run == [] && d.outset == Outset(d.changed, d.open, d.configuration, d.arrived)
    modifies d`queue, d`counters, d`arrived, d`state, d`reading, d`now, d`link, d`waited, d`run, d`changed
    modifies d`open, d`info, d`model, d`configuration, d`shielded, d.framer
    ensures Ready(d) && d.run == body + cleanup && old(d.arrived) <= d.arrived
    ensures After(TermsOf(d), body).safe && Grounded(body, d.arrived)
    ensures error.None? ==>
      var m := After(TermsOf(d), body);
      && cleanup == [] && d.open == (old(d.open) || Opened in body)
      && Matched(TermsOf(d), m) && m.stopped && m.tally.starts == (if startStream then 1 else 0)
      && m.config == d.configuration && m.status == d.info
      && d.changed == (old(d.changed) || m.tally.mutated)
      && d.state == (if startStream then Streaming else Connected)
    ensures error.Some? ==>
      && !d.open && d.state == Faulted
      && if old(d.open) || Opened in body
         then IsCleanup(cleanup, old(d.changed) || After(TermsOf(d), body).tally.mutated) else cleanup == []
    ensures old(Reachable(d, sc)) && d.settings.password == SICK_LMS ==>
      && error.None? && d.open && d.Calm()
      && d.link.scanner == Some(Goal(d.settings, sc, if startStream then 0x24 else 0x25))
      && d.link.baud == FinalBaud(d.settings, sc.baud)
      && After(TermsOf(d), body).tally == Writes(d.settings, sc).(starts := if startStream then 1 else 0)
  {
    hide Quiet, WillBring, ValidSettings, WriteAllowed, FaultFree, Goal, Writes, After, Grounded, Booked, Matched, IsCleanup;
    hide Reachable, FinalBaud, d.Calm, d.QueueOk;
    error := TryInitialize(d, startStream, sc);
    FitIsReady(d);
    body, cleanup := d.run, [];
    if error.Some? {
      ghost var arrived := d.arrived;
      cleanup := CloseUnlocked(d, sc);
      GroundedLater(body, arrived, d.arrived);
      d.state := Faulted;
    } else {
      AppendNothing(body);
    }
  }

  lemma RunBegins(t: Terms, outset: Outset)
    ensures Booked(t, outset, [], outset.arrived, outset.changed, outset.open)
  {
  }

  /** In the middle of a run the device is as well kept as between two. */
  lemma FitIsReady(d: Device)
    requires Fit(d) && WriteAllowed(d.settings) && !d.shielded
    ensures Ready(d) && d.outset.arrived <= d.arrived
    ensures After(TermsOf(d), d.run).safe && Grounded(d.run, d.arrived)
    ensures d.changed == (d.outset.changed || Account(d).tally.mutated) && d.open == (d.outset.open || Opened in d.run)
  {
  }
}
