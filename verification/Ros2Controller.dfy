/**
 `SingleStatusGate` and the loop of `run` in src/lms200/ros2_status_experiment.py.

 Everything outside the controller (marker files, the clock, the relay process, the port and the
 thread that collects the relay's lines) is a script of moments: the controller takes the next one
 whenever it looks at the world, and the lines of that moment are collected there and then.
 */
module Ros2Controller {
  import opened Bytes

  type Duration = d: real | d >= 0.0 witness 0.0

  const STATUS_REQUEST: Bytes := [0x02, 0x00, 0x01, 0x00, 0x31, 0x15, 0x12]

  // ---------------------------------------------------------------- the gate

  datatype Gate = Gate(buffer: Bytes, sent: bool)

  datatype Reply = Nothing | Packet(bytes: Bytes) | Refused

  datatype Call = Call(data: Bytes, authorized: bool)

  const CLOSED := Gate([], false)

  function Answer(g: Gate, c: Call): Reply {
    if c.data == [] then Nothing
    else if !c.authorized || g.sent || !(g.buffer + c.data <= STATUS_REQUEST) then Refused
    else if |g.buffer + c.data| == 7 then Packet(g.buffer + c.data)
    else Nothing
  }

  function After(g: Gate, c: Call): Gate {
    if c.data == [] || !c.authorized || g.sent then g
    else Gate(g.buffer + c.data, g.buffer + c.data == STATUS_REQUEST)
  }

  function AfterAll(calls: seq<Call>): Gate {
    if calls == [] then CLOSED else After(AfterAll(calls[..|calls| - 1]), calls[|calls| - 1])
  }

  /** Everything the node said while it was authorized. */
  function Admitted(calls: seq<Call>): Bytes {
    if calls == [] then []
    else
      var last := calls[|calls| - 1];
      Admitted(calls[..|calls| - 1]) + (if last.authorized then last.data else [])
  }

  class SingleStatusGate {
    var buffer: Bytes
    var sent: bool

    ghost function Value(): Gate
      reads this
    {
      Gate(buffer, sent)
    }

    constructor ()
      ensures Value() == CLOSED
    {
      buffer, sent := [], false;
    }

    method Accept(data: Bytes, authorized: bool) returns (reply: Reply)
      modifies this
      ensures reply == Answer(old(Value()), Call(data, authorized))
      ensures Value() == After(old(Value()), Call(data, authorized))
    {
      if data == [] {
        return Nothing;
      }
      if !authorized || sent {
        return Refused;
      }
      buffer := buffer + data;
      if !(buffer <= STATUS_REQUEST) {
        return Refused;
      }
      if |buffer| != |STATUS_REQUEST| {
        return Nothing;
      }
      sent := true;
      return Packet(buffer);
    }
  }

  /** The gate's fields after any calls, refused ones included. */
  lemma {:induction false} GateHolds(calls: seq<Call>)
    ensures var g := AfterAll(calls);
      if g.sent then g.buffer == STATUS_REQUEST <= Admitted(calls) else g.buffer == Admitted(calls) != STATUS_REQUEST
    decreases |calls|
  {
    if calls != [] {
      var n := |calls| - 1;
      GateHolds(calls[..n]);
      assert Admitted(calls[..n]) <= Admitted(calls);
    }
  }

  /**
   Whatever calls came before, refused or not, a call releases a packet exactly when it is
   authorized and completes the request out of all that was ever authorized; the packet is then
   the request.
   */
  lemma {:induction false} GateReleases(calls: seq<Call>, c: Call)
    ensures Answer(AfterAll(calls), c).Packet? <==>
      c.data != [] && c.authorized && Admitted(calls + [c]) == STATUS_REQUEST
    ensures Answer(AfterAll(calls), c).Packet? ==> Answer(AfterAll(calls), c).bytes == STATUS_REQUEST
  {
    GateHolds(calls);
    assert (calls + [c])[..|calls|] == calls;
    var g := AfterAll(calls);
    if g.buffer + c.data <= STATUS_REQUEST && |g.buffer + c.data| == 7 {
      assert (g.buffer + c.data) == STATUS_REQUEST;
    }
    if g.sent && c.data != [] && c.authorized {
      assert |Admitted(calls + [c])| > 7;
    }
  }

  lemma {:induction false} AdmittedGrows(calls: seq<Call>, k: nat)
    requires k <= |calls|
    ensures Admitted(calls[..k]) <= Admitted(calls)
    decreases |calls|
  {
    var n := |calls| - 1;
    if k == |calls| {
      assert calls[..k] == calls;
    } else {
      AdmittedGrows(calls[..n], k);
      assert calls[..n][..k] == calls[..k];
    }
  }

  /** Over any sequence of calls the gate opens at most once. */
  lemma {:induction false} GateOpensOnce(calls: seq<Call>, i: nat, j: nat)
    requires i < j < |calls|
    requires Answer(AfterAll(calls[..i]), calls[i]).Packet?
    ensures !Answer(AfterAll(calls[..j]), calls[j]).Packet?
  {
    GateReleases(calls[..i], calls[i]);
    GateReleases(calls[..j], calls[j]);
    assert calls[..i] + [calls[i]] == calls[..j][..i + 1];
    AdmittedGrows(calls[..j], i + 1);
    var now := calls[..j] + [calls[j]];
    assert now[..j] == calls[..j];
    assert Admitted(now) == Admitted(calls[..j]) + (if calls[j].authorized then calls[j].data else []);
    if calls[j].authorized && calls[j].data != [] {
      assert |Admitted(now)| > |Admitted(calls[..j])| >= 7;
    }
  }

  // ---------------------------------------------------------------- the world and the history

  /** A line the relay prints. */
  datatype Line = RelayReady | NodeExit(code: int) | RelayError | NodeTx(data: Bytes) | Malformed | Other

  /** What the controller finds when it looks; None for a call that raises. */
  datatype Moment = Moment(
    elapsed: Duration, lines: seq<Line>,
    cancel: bool, ros2Ready: bool, powerOn: bool, startupComplete: bool,
    foreignTrigger: bool, foreignListener: bool,
    exited: bool, readFails: bool, writeCount: Option<int>, flushFails: bool)

  /** A collected line; `seen` is `controller_status_trigger_seen`. */
  datatype Event = Event(line: Line, seen: bool)

  /**
   What has happened, in order.  `Listening` is the sight of `ros2.ready`, `PowerOn` and `Startup` that
   of the operator's marker files; `own` tells a trigger of the controller from anyone else's.
   */
  datatype Action =
    | RelayUp(at: Duration)
    | Listening(at: Duration)
    | PowerOn(at: Duration)
    | Startup(at: Duration)
    | Trigger(at: Duration, own: bool)
    | Heard(data: Bytes)
    | Wrote(packet: Bytes, at: Duration)

  datatype Outcome =
    | Cancelled | ListenerTimeout | PowerOnTimeout | StartupTimeout | Deadline | FileExists | PortError | BadEvent
    | RelayFailed | GateRefused | ShortWrite | ExitedEarly | Finished
    | Cut // the script ends in the middle of the run

  /** All bytes the node was heard to send. */
  function Said(h: seq<Action>): Bytes {
    if h == [] then []
    else Said(h[..|h| - 1]) + (if h[|h| - 1].Heard? then h[|h| - 1].data else [])
  }

  function Spoken(events: seq<Event>): Bytes {
    if events == [] then []
    else (if events[0].line.NodeTx? then events[0].line.data else []) + Spoken(events[1..])
  }

  lemma SaidMore(h: seq<Action>, a: Action)
    ensures Said(h + [a]) == Said(h) + (if a.Heard? then a.data else [])
  {
    assert (h + [a])[..|h|] == h;
  }

  lemma {:induction false} SpokenMore(events: seq<Event>, e: Event)
    ensures Spoken(events + [e]) == Spoken(events) + (if e.line.NodeTx? then e.line.data else [])
    decreases |events|
  {
    var all := events + [e];
    if events == [] {
      assert all[1..] == [];
      assert Spoken([]) == [];
    } else {
      SpokenMore(events[1..], e);
      assert all[1..] == events[1..] + [e];
    }
  }

  // ---------------------------------------------------------------- what a run must look like

  /** Where in the history each step is. */
  datatype Marks = Marks(
    relay: Option<nat>, listening: Option<nat>, power: Option<nat>, startup: Option<nat>, trigger: Option<nat>,
    wrote: Option<nat>)

  const NOWHERE := Marks(None, None, None, None, None, None)

  predicate Located(h: seq<Action>, m: Marks) {
    && (m.relay.Some? ==> m.relay.value < |h| && h[m.relay.value].RelayUp?)
    && (m.listening.Some? ==> m.relay.Some? && m.relay.value < m.listening.value < |h| && h[m.listening.value].Listening?)
    && (m.power.Some? ==> m.listening.Some? && m.listening.value < m.power.value < |h| && h[m.power.value].PowerOn?)
    && (m.startup.Some? ==> m.power.Some? && m.power.value < m.startup.value < |h| && h[m.startup.value].Startup?)
    && (m.trigger.Some? ==> m.trigger.value < |h| && h[m.trigger.value].Trigger?)
  }

  /** The controller's own trigger stands behind everything that authorizes it. */
  predicate Authorized(passive: bool, h: seq<Action>, m: Marks)
    requires Located(h, m)
  {
    && m.trigger.Some? && h[m.trigger.value].own
    && m.listening.Some? && m.listening.value < m.trigger.value
    && (passive ==>
          && m.power.Some? && m.startup.Some? && m.startup.value < m.trigger.value
          && h[m.trigger.value].at >= h[m.power.value].at + 65.0)
  }

  /** The write at `w`, seen from the trigger at `t`. */
  predicate WriteFits(h: seq<Action>, t: nat, w: nat) {
    && t < w < |h| && h[t].Trigger? && h[w].Wrote?
    && h[w].packet == STATUS_REQUEST && h[w].at >= h[t].at
    && Said(h[..t]) == [] && STATUS_REQUEST <= Said(h[t..w])
  }

  predicate Consistent(passive: bool, h: seq<Action>, m: Marks) {
    && Located(h, m)
    && (forall i | 0 <= i < |h| :: h[i].Wrote? ==> m.wrote == Some(i))
    && (m.wrote.Some? ==> Authorized(passive, h, m) && WriteFits(h, m.trigger.value, m.wrote.value))
  }

  /**
   The safety of a whole run: one write at most, of exactly the request, behind a trigger of the
   controller's own that stands behind the relay and then the node being ready, with no byte from
   the node before that trigger and the whole request from it afterwards; in passive mode the trigger comes
   65 seconds or more after the power-on confirmation, with startup confirmed in between.
   */
  ghost predicate SafeRun(passive: bool, h: seq<Action>) {
    && (forall i, j | 0 <= i < j < |h| :: !(h[i].Wrote? && h[j].Wrote?))
    && (forall w | 0 <= w < |h| && h[w].Wrote? ::
          exists r: nat, l: nat, t: nat ::
            && r < l < t && WriteFits(h, t, w) && h[r].RelayUp? && h[l].Listening? && h[t].own
            && (passive ==> PowerConfirmed(h, l, t)))
  }

  /** Between both listeners being ready and the trigger: power on, then startup, and 65 seconds. */
  ghost predicate PowerConfirmed(h: seq<Action>, l: nat, t: nat)
    requires t < |h| && h[t].Trigger?
  {
    exists p: nat, s: nat ::
      l < p < s < t && h[p].PowerOn? && h[s].Startup? && h[t].at >= h[p].at + 65.0
  }

  lemma ConsistentIsSafe(passive: bool, h: seq<Action>, m: Marks)
    requires Consistent(passive, h, m)
    ensures SafeRun(passive, h)
  {
    if m.wrote.Some? {
      var r, l, t := m.relay.value, m.listening.value, m.trigger.value;
      assert WriteFits(h, t, m.wrote.value) && h[r].RelayUp? && h[l].Listening? && h[t].own;
      if passive {
        assert h[m.power.value].PowerOn? && h[m.startup.value].Startup?;
        assert PowerConfirmed(h, l, t);
      }
    }
  }

  lemma WriteFitsLater(h: seq<Action>, t: nat, w: nat, a: Action)
    requires WriteFits(h, t, w)
    ensures WriteFits(h + [a], t, w)
  {
    assert (h + [a])[..t] == h[..t] && (h + [a])[t..w] == h[t..w];
  }

  /** Anything but a write leaves the account as it stands. */
  lemma ConsistentMore(passive: bool, h: seq<Action>, m: Marks, a: Action)
    requires Consistent(passive, h, m) && !a.Wrote?
    ensures Consistent(passive, h + [a], m)
  {
    hide WriteFits;
    if m.wrote.Some? {
      WriteFitsLater(h, m.trigger.value, m.wrote.value, a);
    }
  }

  /** The one write, when all that was said behind the trigger begins with the packet. */
  lemma ConsistentWrite(passive: bool, h: seq<Action>, m: Marks, at: Duration)
    requires Consistent(passive, h, m) && m.wrote.None? && Authorized(passive, h, m)
    requires at >= h[m.trigger.value].at
    requires Said(h[..m.trigger.value]) == [] && STATUS_REQUEST <= Said(h[m.trigger.value..])
    ensures Consistent(passive, h + [Wrote(STATUS_REQUEST, at)], m.(wrote := Some(|h|)))
  {
    var t := m.trigger.value;
    var later := h + [Wrote(STATUS_REQUEST, at)];
    assert later[..t] == h[..t] && later[t..|h|] == h[t..];
  }

  // ---------------------------------------------------------------- what the collector leaves behind

  /**
   The node's bytes are in three places: heard before the trigger and still in the queue, or heard
   after it and either in the gate or in the queue.
   */
  predicate Accounted(h: seq<Action>, trigger: Option<nat>, buffer: Bytes, events: seq<Event>, early: nat) {
    && early <= |events|
    && (forall i | 0 <= i < |events| && events[i].line.NodeTx? :: events[i].seen <==> early <= i)
    && match trigger
       case None => early == |events| && buffer == [] && Said(h) == Spoken(events)
       case Some(t) => && t <= |h| && Said(h[..t]) == Spoken(events[..early])
                       && Said(h[t..]) == buffer + Spoken(events[early..])
  }

  /** The loop's variables say what the history says. */
  predicate Flagged(passive: bool, h: seq<Action>, m: Marks, clock: Duration,
                    ready: bool, powerOn: Option<Duration>, startupConfirmed: bool, authorized: bool)
  {
    && Located(h, m)
    && (m.trigger.Some? ==> h[m.trigger.value].at <= clock)
    && ready == m.listening.Some?
    && powerOn.Some? == m.power.Some?
    && (powerOn.Some? ==> passive && powerOn.value == h[m.power.value].at)
    && (passive ==> startupConfirmed == m.startup.Some?)
    && (authorized ==> Authorized(passive, h, m))
  }

  lemma FlaggedMore(passive: bool, h: seq<Action>, m: Marks, clock: Duration,
                    ready: bool, powerOn: Option<Duration>, startupConfirmed: bool, authorized: bool, a: Action)
    requires Flagged(passive, h, m, clock, ready, powerOn, startupConfirmed, authorized)
    ensures Flagged(passive, h + [a], m, clock, ready, powerOn, startupConfirmed, authorized)
  {
  }

  lemma FlaggedLater(passive: bool, h: seq<Action>, m: Marks, clock: Duration,
                     ready: bool, powerOn: Option<Duration>, startupConfirmed: bool, authorized: bool, more: Duration)
    requires Flagged(passive, h, m, clock, ready, powerOn, startupConfirmed, authorized)
    ensures Flagged(passive, h, m, clock + more, ready, powerOn, startupConfirmed, authorized)
    ensures authorized ==> m.trigger.Some?
  {
  }

  /** One more collected line. */
  lemma AccountedCollect(h: seq<Action>, trigger: Option<nat>, buffer: Bytes, events: seq<Event>, early: nat, e: Event)
    requires Accounted(h, trigger, buffer, events, early)
    requires e.seen == (e.line.NodeTx? && trigger.Some?)
    ensures Accounted(if e.line.NodeTx? then h + [Heard(e.line.data)] else h, trigger, buffer, events + [e],
                      if trigger.None? then early + 1 else early)
  {
    match trigger
    case None => CollectEarly(h, buffer, events, early, e);
    case Some(t) => CollectLate(h, t, buffer, events, early, e);
  }

  lemma CollectEarly(h: seq<Action>, buffer: Bytes, events: seq<Event>, early: nat, e: Event)
    requires Accounted(h, None, buffer, events, early) && !e.seen
    ensures Accounted(if e.line.NodeTx? then h + [Heard(e.line.data)] else h, None, buffer, events + [e], early + 1)
  {
    hide Said, Spoken;
    if e.line.NodeTx? {
      SaidMore(h, Heard(e.line.data));
    }
    SpokenMore(events, e);
    AppendNothing(Spoken(events));
  }

  lemma CollectLate(h: seq<Action>, t: nat, buffer: Bytes, events: seq<Event>, early: nat, e: Event)
    requires Accounted(h, Some(t), buffer, events, early) && e.seen == e.line.NodeTx?
    ensures Accounted(if e.line.NodeTx? then h + [Heard(e.line.data)] else h, Some(t), buffer, events + [e], early)
  {
    hide Said, Spoken;
    var more := events + [e];
    assert more[..early] == events[..early] && more[early..] == events[early..] + [e];
    SpokenMore(events[early..], e);
    if e.line.NodeTx? {
      var h' := h + [Heard(e.line.data)];
      assert h'[..t] == h[..t] && h'[t..] == h[t..] + [Heard(e.line.data)];
      SaidMore(h[t..], Heard(e.line.data));
      Regroup(buffer, Spoken(events[early..]), e.line.data);
    } else {
      AppendNothing(Spoken(events[early..]));
    }
  }

  /** A step that is no node traffic. */
  lemma AccountedStep(h: seq<Action>, trigger: Option<nat>, buffer: Bytes, events: seq<Event>, early: nat, a: Action)
    requires Accounted(h, trigger, buffer, events, early) && !a.Heard?
    ensures Accounted(h + [a], trigger, buffer, events, early)
  {
    SaidMore(h, a);
    if trigger.Some? {
      var t := trigger.value;
      assert (h + [a])[..t] == h[..t] && (h + [a])[t..] == h[t..] + [a];
      SaidMore(h[t..], a);
    }
  }

  /** The trigger comes to exist. */
  lemma AccountedTrigger(h: seq<Action>, buffer: Bytes, events: seq<Event>, early: nat, a: Action)
    requires Accounted(h, None, buffer, events, early) && a.Trigger?
    ensures Accounted(h + [a], Some(|h|), buffer, events, early)
  {
    var h' := h + [a];
    assert h'[..|h|] == h && h'[|h|..] == [] + [a];
    SaidMore([], a);
    assert Said([]) == [] && Spoken([]) == [];
    assert events[..early] == events && events[early..] == [];
  }

  lemma TakeLate(h: seq<Action>, trigger: Option<nat>, buffer: Bytes, events: seq<Event>, moved: Bytes)
    requires Accounted(h, trigger, buffer, events, 0) && events != []
    requires moved == (if events[0].line.NodeTx? then events[0].line.data else [])
    ensures Accounted(h, trigger, buffer + moved, events[1..], 0)
  {
    hide Said;
    var rest := events[1..];
    assert events[0..] == events && rest[0..] == rest && events[..0] == rest[..0];
    assert buffer + moved + Spoken(rest) == buffer + (moved + Spoken(rest));
  }

  lemma TakeEarly(h: seq<Action>, trigger: Option<nat>, buffer: Bytes, events: seq<Event>, early: nat)
    requires Accounted(h, trigger, buffer, events, early) && early > 0
    requires events[0].line.NodeTx? ==> events[0].line.data == []
    ensures Accounted(h, trigger, buffer, events[1..], early - 1)
  {
    hide Said;
    var rest := events[1..];
    assert rest[..early - 1] == events[..early][1..] && rest[early - 1..] == events[early..];
    assert events[..early][0] == events[0];
    assert Spoken(rest[..early - 1]) == Spoken(events[..early]);
  }

  /** The next event leaves the queue: a silent one, or one whose bytes move into the gate. */
  lemma AccountedTake(h: seq<Action>, trigger: Option<nat>, buffer: Bytes, events: seq<Event>, early: nat, moved: Bytes)
    requires Accounted(h, trigger, buffer, events, early) && events != []
    requires moved == (if events[0].line.NodeTx? then events[0].line.data else [])
    requires moved == [] || events[0].seen
    ensures Accounted(h, trigger, buffer + moved, events[1..], if early == 0 then 0 else early - 1)
    ensures moved != [] ==> early == 0
  {
    if early == 0 {
      TakeLate(h, trigger, buffer, events, moved);
    } else {
      TakeEarly(h, trigger, buffer, events, early);
      AppendNothing(buffer);
    }
  }

  // ---------------------------------------------------------------- the controller

  class Controller {
    const passive: bool
    const gate: SingleStatusGate
    var script: seq<Moment>
    var world: Moment
    var clock: Duration
    var events: seq<Event>
    var triggerFile: bool
    var relayReady: bool
    var ready: bool
    var powerOn: Option<Duration>
    var startupConfirmed: bool
    var authorized: bool
    var nodeExit: Option<int>
    var drained: Option<Duration>
    var history: seq<Action>
    ghost var marks: Marks
    ghost var early: nat

    constructor (passive: bool, script: seq<Moment>)
      requires script != []
      ensures Running() && fresh(gate) && this.passive == passive && this.script == script && history == []
    {
      this.passive := passive;
      gate := new SingleStatusGate();
      this.script, world, clock, events := script, script[0], 0.0, [];
      triggerFile, relayReady, ready, powerOn, startupConfirmed, authorized := false, false, false, None, !passive, false;
      nodeExit, drained, history, marks, early := None, None, [], NOWHERE, 0;
    }

    /** What holds at every moment of a run that has not failed. */
    ghost predicate Running()
      reads this, gate
    {
      && Consistent(passive, history, marks)
      && Accounted(history, marks.trigger, gate.buffer, events, early)
      && triggerFile == marks.trigger.Some? && relayReady == marks.relay.Some?
      && Flagged(passive, history, marks, clock, ready, powerOn, startupConfirmed, authorized)
      && gate.sent == marks.wrote.Some?
      && (!gate.sent ==> gate.buffer != STATUS_REQUEST)
      && (drained.Some? ==> marks.wrote.Some?)
    }

    /** A confirmation that the loop no longer waits for. */
    predicate Overdue(now: Duration)
      reads this
    {
      if !passive then !ready && now > 300.0
      else if powerOn.None? then now > 300.0
      else !authorized && now - powerOn.value > 300.0
    }

    /** What the gate's answer makes of the run: refused, nothing yet, or written and flushed. */
    ghost predicate Relayed(was: Gate, c: Call, o: Option<Outcome>)
      reads this
    {
      match Answer(was, c)
      case Refused => o == Some(GateRefused)
      case Nothing => o.None?
      case Packet(_) =>
        && (o.None? <==> world.writeCount == Some(7) && !world.flushFails)
        && (o.None? ==> drained == Some(clock))
        && (o == Some(ShortWrite) <==> world.writeCount.Some? && world.writeCount.value != 7)
    }

    /** What holds when the run is over. */
    ghost predicate Safe()
      reads this
    {
      Consistent(passive, history, marks)
    }

    /** The fields the loop itself sets are as they were. */
    twostate predicate SameFlags()
      reads this, gate
    {
      && relayReady == old(relayReady) && ready == old(ready) && powerOn == old(powerOn)
      && startupConfirmed == old(startupConfirmed) && authorized == old(authorized)
      && nodeExit == old(nodeExit) && drained == old(drained)
      && gate.Value() == old(gate.Value())
    }

    /** Add a step that is neither node traffic nor a write. */
    method Note(a: Action)
      requires Running() && !a.Heard? && !a.Wrote?
      modifies this`history
      ensures Running() && history == old(history) + [a]
    {
      hide Consistent, Accounted, Flagged;
      FlaggedMore(passive, history, marks, clock, ready, powerOn, startupConfirmed, authorized, a);
      ConsistentMore(passive, history, marks, a);
      AccountedStep(history, marks.trigger, gate.buffer, events, early, a);
      history := history + [a];
    }

    lemma Locates()
      requires Safe()
      ensures Located(history, marks)
    {
    }

    /** `collect_events` on the lines that arrive at one moment. */
    method Collect(lines: seq<Line>)
      requires Running()
      modifies this`events, this`history, this`early
      ensures Running()
      ensures lines == [] ==> events == old(events) && history == old(history)
      ensures |history| >= |old(history)|
    {
      hide Consistent, Accounted, Flagged;
      var i := 0;
      while i < |lines|
        invariant 0 <= i <= |lines| && Running() && |history| >= |old(history)|
        invariant lines == [] ==> events == old(events) && history == old(history)
      {
        CollectOne(lines[i]);
        i := i + 1;
      }
    }

    method CollectOne(line: Line)
      requires Running()
      modifies this`events, this`history, this`early
      ensures Running()
      ensures |history| >= |old(history)|
    {
      hide Consistent, Accounted, Flagged;
      var e := Event(line, line.NodeTx? && triggerFile);
      AccountedCollect(history, marks.trigger, gate.buffer, events, early, e);
      if line.NodeTx? {
        FlaggedMore(passive, history, marks, clock, ready, powerOn, startupConfirmed, authorized, Heard(line.data));
        ConsistentMore(passive, history, marks, Heard(line.data));
        history := history + [Heard(line.data)];
      }
      events := events + [e];
      early := if triggerFile then early else early + 1;
    }

    /** The trigger file comes to exist; it did not before. */
    method TouchTrigger(at: Duration, own: bool)
      requires Running() && !triggerFile && !authorized && at <= clock
      modifies this`triggerFile, this`history, this`marks
      ensures Running() && triggerFile
      ensures history == old(history) + [Trigger(at, own)]
      ensures marks == old(marks).(trigger := Some(|old(history)|))
    {
      hide Accounted;
      Locates();
      var a := Trigger(at, own);
      AccountedTrigger(history, gate.buffer, events, early, a);
      ConsistentMore(passive, history, marks, a);
      history := history + [a];
      marks := marks.(trigger := Some(|history| - 1));
      triggerFile := true;
    }

    /** Between any two steps: the clock moves, the relay's lines are collected. */
    method Look()
      requires Running()
      modifies this`script, this`world, this`clock, this`events, this`triggerFile, this`history, this`marks, this`early
      ensures Running() && SameFlags() && clock >= old(clock)
      ensures |script| <= |old(script)| && (old(script) != [] ==> |script| < |old(script)|)
      ensures old(script) == [] ==> events == old(events)
    {
      hide Running;
      if script != [] {
        Tick();
        Collect(world.lines);
        NoticeForeign();
      }
    }

    method Tick()
      requires Running() && script != []
      modifies this`script, this`world, this`clock
      ensures Running() && clock >= old(clock) && |script| < |old(script)|
    {
      hide Consistent, Accounted, Flagged;
      FlaggedLater(passive, history, marks, clock, ready, powerOn, startupConfirmed, authorized, script[0].elapsed);
      world, script := script[0], script[1..];
      clock := clock + world.elapsed;
    }

    /** Somebody else may create the trigger file. */
    method NoticeForeign()
      requires Running()
      modifies this`triggerFile, this`history, this`marks
      ensures Running()
    {
      hide Consistent, Accounted, Flagged;
      FlaggedLater(passive, history, marks, clock, ready, powerOn, startupConfirmed, authorized, 0.0);
      if world.foreignTrigger && !triggerFile {
        TouchTrigger(clock, false);
      }
    }

    /** The marker files and their timeouts, up to the read; `now` is the time this turn began. */
    method CheckMarkers(now: Duration) returns (o: Option<Outcome>)
      requires Running() && now <= clock
      modifies this
      ensures |script| <= |old(script)| && clock >= old(clock)
      ensures Safe() && (o.None? ==> Running()) && o != Some(Finished) && o != Some(Deadline)
      ensures o == Some(Cancelled) ==> world.cancel
      ensures o == Some(ListenerTimeout) ==> !passive && !ready && now > 300.0
      ensures o == Some(PowerOnTimeout) ==> passive && powerOn.None? && now > 300.0
      ensures o == Some(StartupTimeout) ==> passive && powerOn.Some? && !authorized && now - powerOn.value > 300.0
      ensures o.None? ==> !Overdue(now)
    {
      hide Consistent, Accounted;
      Look();
      if world.cancel {
        return Some(Cancelled);
      }
      if !ready && relayReady {
        Look();
        if world.ros2Ready {
          if world.foreignListener {
            return Some(FileExists);
          }
          BecomeReady();
        }
      }
      if !passive {
        return if !ready && now > 300.0 then Some(ListenerTimeout) else None;
      }
      o := CheckPower(now);
      if o.None? && powerOn.None? && now > 300.0 {
        return Some(PowerOnTimeout);
      }
      if o.None? && powerOn.Some? && !authorized && now - powerOn.value > 300.0 {
        return Some(StartupTimeout);
      }
    }

    method BecomeReady()
      requires Running() && !ready && relayReady && world.ros2Ready
      modifies this`ready, this`history, this`marks
      ensures Running() && ready
    {
      hide Accounted;
      Note(Listening(clock));
      ready := true;
      marks := marks.(listening := Some(|history| - 1));
    }

    /** Power-on and startup confirmation, and with both the trigger. */
    method CheckPower(now: Duration) returns (o: Option<Outcome>)
      requires Running() && now <= clock && passive
      modifies this
      ensures |script| <= |old(script)| && clock >= old(clock)
      ensures Safe() && (o.None? ==> Running()) && o != Some(Finished) && o != Some(Deadline)
      ensures o.None? || o == Some(FileExists)
    {
      hide Consistent, Accounted;
      o := None;
      if ready && powerOn.None? {
        Look();
        if world.powerOn {
          ConfirmPower(now);
        }
      }
      if powerOn.Some? {
        Look();
        if world.startupComplete {
          if !startupConfirmed {
            ConfirmStartup(now);
          }
          if !authorized && now - powerOn.value >= 65.0 {
            Locates();
            o := Authorize(now);
          }
        }
      }
    }

    method ConfirmPower(now: Duration)
      requires Running() && passive && ready && powerOn.None? && world.powerOn
      modifies this`powerOn, this`history, this`marks
      ensures Running() && powerOn == Some(now)
    {
      hide Accounted;
      NotYet();
      Note(PowerOn(now));
      powerOn := Some(now);
      marks := marks.(power := Some(|history| - 1));
    }

    method ConfirmStartup(now: Duration)
      requires Running() && passive && powerOn.Some? && !startupConfirmed && world.startupComplete
      modifies this`startupConfirmed, this`history, this`marks
      ensures Running() && startupConfirmed
    {
      hide Accounted;
      NotYet();
      Note(Startup(now));
      startupConfirmed := true;
      marks := marks.(startup := Some(|history| - 1));
    }

    /** Before startup is confirmed nothing can be authorized in passive mode. */
    lemma NotYet()
      requires Running() && passive && marks.startup.None?
      ensures !authorized && marks.wrote.None? && marks.startup.None?
    {
      hide Accounted;
    }

    /** `status_authorized = True` and the exclusive creation of the trigger. */
    method Authorize(now: Duration) returns (o: Option<Outcome>)
      requires Running() && now <= clock && ready && !authorized
      requires passive ==> powerOn.Some? && startupConfirmed && now - powerOn.value >= 65.0
      modifies this
      ensures |script| <= |old(script)| && clock >= old(clock)
      ensures Safe() && (o.None? ==> Running()) && o != Some(Finished) && o != Some(Deadline)
      ensures if o.None? then authorized else o == Some(FileExists)
      ensures ready == old(ready)
    {
      hide Accounted, WriteFits;
      Look();
      if triggerFile {
        return Some(FileExists);
      }
      TouchTrigger(now, true);
      authorized := true;
      return None;
    }

    /** The read of the port, the forwarding to the relay and the wait for an exited relay's lines. */
    method ReadPort() returns (o: Option<Outcome>)
      requires Running()
      modifies this
      ensures |script| <= |old(script)| && clock >= old(clock)
      ensures Running() && o != Some(Finished) && o != Some(Deadline)
    {
      hide Consistent, Accounted;
      Look();
      if world.readFails {
        return Some(PortError);
      }
      Look();
      if world.exited {
        Look();
      }
      return None;
    }

    /** `while not events.empty()`. */
    method DrainEvents() returns (o: Option<Outcome>)
      requires Running()
      modifies this, gate
      ensures |script| <= |old(script)| && clock >= old(clock)
      ensures Safe() && (o.None? ==> Running()) && o != Some(Finished) && o != Some(Deadline)
    {
      hide Consistent, Accounted, Flagged;
      while events != []
        invariant Running() && |script| <= |old(script)| && clock >= old(clock)
        decreases |script|, |events|
      {
        o := HandleEvent();
        if o.Some? {
          return;
        }
        Look();
      }
      return None;
    }

    method HandleEvent() returns (o: Option<Outcome>)
      requires Running() && events != []
      modifies this, gate
      ensures script == old(script) && clock == old(clock) && |events| < |old(events)|
      ensures Safe() && (o.None? ==> Running()) && o != Some(Finished) && o != Some(Deadline)
      ensures match old(events)[0].line
        case RelayReady => o.None? && relayReady
        case NodeExit(code) => o.None? && nodeExit == Some(code)
        case RelayError => o == Some(RelayFailed)
        case Malformed => o == Some(BadEvent)
        case Other => o.None?
        case NodeTx(data) => Relayed(old(gate.Value()), Call(data, old(authorized && events[0].seen)), o)
    {
      hide Consistent, Accounted, Flagged;
      var e := events[0];
      if e.line.NodeTx? {
        o := Relay(e.line.data, e.seen);
        return;
      }
      AccountedTake(history, marks.trigger, gate.buffer, events, early, []);
      AppendNothing(gate.buffer);
      events, early := events[1..], if early == 0 then 0 else early - 1;
      o := None;
      match e.line
      case RelayReady =>
        NoteRelay();
      case NodeExit(code) =>
        nodeExit := Some(code);
      case RelayError =>
        o := Some(RelayFailed);
      case Malformed =>
        o := Some(BadEvent);
      case Other =>
    }

    method NoteRelay()
      requires Running()
      modifies this`relayReady, this`history, this`marks
      ensures Running() && relayReady
    {
      hide Accounted, WriteFits;
      if !relayReady {
        Note(RelayUp(clock));
        relayReady := true;
        marks := marks.(relay := Some(|history| - 1));
      }
    }

    /** A `node_tx` event: through the gate and, if that opens, on to the device. */
    method Relay(data: Bytes, seen: bool) returns (o: Option<Outcome>)
      requires Running() && events != [] && events[0] == Event(NodeTx(data), seen)
      modifies this, gate
      ensures script == old(script) && clock == old(clock) && |events| < |old(events)|
      ensures Safe() && (o.None? ==> Running()) && o != Some(Finished) && o != Some(Deadline)
      ensures Relayed(old(gate.Value()), Call(data, old(authorized) && seen), o)
    {
      hide Consistent, Accounted, Flagged, Answer, After;
      ghost var was := gate.Value();
      var reply := gate.Accept(data, authorized && seen);
      if reply.Refused? {
        events := events[1..];
        return Some(GateRefused);
      }
      AnswerMeans(was, Call(data, authorized && seen));
      AccountedTake(history, marks.trigger, was.buffer, events, early, data);
      AppendNothing(was.buffer);
      events, early := events[1..], if early == 0 then 0 else early - 1;
      match reply
      case Nothing =>
        return None;
      case Packet(bytes) =>
        o := Transmit(bytes);
    }

    /** `device.write(packet)` and the flush behind it. */
    method Transmit(packet: Bytes) returns (o: Option<Outcome>)
      requires Safe() && marks.wrote.None?
      requires packet == gate.buffer == STATUS_REQUEST && gate.sent && drained.None?
      requires Accounted(history, marks.trigger, gate.buffer, events, early) && early == 0
      requires authorized && triggerFile == marks.trigger.Some? && relayReady == marks.relay.Some?
      requires Flagged(passive, history, marks, clock, ready, powerOn, startupConfirmed, authorized)
      modifies this`history, this`marks, this`drained
      ensures Safe() && (o.None? ==> Running()) && o != Some(Finished) && o != Some(Deadline)
      ensures o.None? <==> world.writeCount == Some(7) && !world.flushFails
      ensures o.None? ==> drained == Some(clock)
      ensures o == Some(ShortWrite) <==> world.writeCount.Some? && world.writeCount.value != 7
      ensures o != Some(GateRefused)
    {
      hide WriteFits;
      EarlySilence(history, marks.trigger.value, gate.buffer, events);
      ConsistentWrite(passive, history, marks, clock);
      AccountedStep(history, marks.trigger, gate.buffer, events, early, Wrote(packet, clock));
      hide Accounted;
      history := history + [Wrote(packet, clock)];
      marks := marks.(wrote := Some(|history| - 1));
      if world.writeCount.None? {
        return Some(PortError);
      }
      if world.writeCount.value != 7 {
        return Some(ShortWrite);
      }
      if world.flushFails {
        return Some(PortError);
      }
      drained := Some(clock);
      return None;
    }

    /** The end of a turn: authorization of a scanner already on, and the ways the loop ends. */
    method Conclude(now: Duration) returns (o: Option<Outcome>)
      requires Running() && now <= clock
      modifies this
      ensures |script| <= |old(script)| && clock >= old(clock)
      ensures Safe() && (o.None? ==> Running())
      ensures o == Some(Finished) ==> marks.wrote.Some?
      ensures o == Some(ExitedEarly) ==> drained.None?
      ensures o == Some(Finished) ==> drained.Some? && now - drained.value >= 5.0
      ensures o.None? ==> if drained.Some? then now - drained.value < 8.0 else nodeExit.None?
      ensures o.None? && !passive && ready ==> authorized
      ensures o != Some(Deadline)
    {
      hide Consistent, Accounted;
      if !passive && ready && !authorized {
        o := Authorize(now);
        if o.Some? {
          return;
        }
      }
      Look();
      if nodeExit.Some? || world.exited {
        if drained.None? {
          return Some(ExitedEarly);
        }
        if now - drained.value >= 5.0 {
          return Some(Finished);
        }
      }
      if drained.Some? && now - drained.value >= 8.0 {
        return Some(Finished);
      }
      return None;
    }

    /** One turn of the loop. */
    method Iterate() returns (o: Option<Outcome>)
      requires Running() && script != []
      modifies this, gate
      ensures |script| < |old(script)|
      ensures Safe() && (o.None? ==> Running())
      ensures o == Some(Finished) ==> marks.wrote.Some?
      ensures o == Some(Deadline) ==> clock >= 660.0
    {
      hide Consistent, Accounted;
      Look();
      if clock >= 660.0 {
        return Some(Deadline);
      }
      Look();
      var now := clock;
      o := CheckMarkers(now);
      if o.Some? {
        return;
      }
      o := ReadPort();
      if o.Some? {
        return;
      }
      o := DrainEvents();
      if o.Some? {
        return;
      }
      o := Conclude(now);
    }
  }

  /** An answer that is no refusal. */
  lemma AnswerMeans(g: Gate, c: Call)
    requires !Answer(g, c).Refused? && (!g.sent ==> g.buffer != STATUS_REQUEST)
    ensures After(g, c).buffer == g.buffer + c.data
    ensures c.data == [] || c.authorized
    ensures Answer(g, c).Packet? ==>
      && c.data != [] && !g.sent && After(g, c) == Gate(STATUS_REQUEST, true) && Answer(g, c).bytes == STATUS_REQUEST
    ensures Answer(g, c).Nothing? ==>
      After(g, c).sent == g.sent && (!g.sent ==> After(g, c).buffer != STATUS_REQUEST)
  {
    AppendNothing(g.buffer);
  }

  /** With nothing of the time before the trigger left in the queue, nothing was said then. */
  lemma EarlySilence(h: seq<Action>, t: nat, buffer: Bytes, events: seq<Event>)
    requires Accounted(h, Some(t), buffer, events, 0)
    ensures Said(h[..t]) == [] && buffer <= Said(h[t..])
  {
    assert events[..0] == [];
    assert Spoken([]) == [];
  }

  /**
   `run` in either mode against any world: the whole history is safe, and a run that ends normally
   has written.
   */
  method Run(passive: bool, script: seq<Moment>) returns (outcome: Outcome, history: seq<Action>)
    ensures SafeRun(passive, history)
    ensures outcome == Finished ==> exists w :: 0 <= w < |history| && history[w].Wrote?
  {
    if script == [] {
      return Cut, [];
    }
    var c := new Controller(passive, script);
    hide Consistent, Accounted, SafeRun;
    while c.script != []
      invariant c.Running() && fresh(c) && fresh(c.gate) && c.passive == passive
      decreases |c.script|
    {
      var o := c.Iterate();
      if o.Some? {
        ConsistentIsSafe(passive, c.history, c.marks);
        if o.value == Finished {
          WrittenSomewhere(passive, c.history, c.marks);
        }
        return o.value, c.history;
      }
    }
    ConsistentIsSafe(passive, c.history, c.marks);
    return Cut, c.history;
  }

  lemma WrittenSomewhere(passive: bool, h: seq<Action>, m: Marks)
    requires Consistent(passive, h, m) && m.wrote.Some?
    ensures exists w :: 0 <= w < |h| && h[w].Wrote?
  {
    assert h[m.wrote.value].Wrote?;
  }
}
