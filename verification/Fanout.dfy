/**
 service.py: the bounded fan-out of scans to subscribers and to the recorder task.  Coroutines run
 one at a time between their awaits, so a run is a sequence of such steps in any order.
 */
module Fanout {
  import opened Bytes
  import opened Recording

  const CLIENT_QUEUE: nat := 2
  const RECORD_QUEUE: nat := 128

  // ---------------------------------------------------------------- a subscriber

  datatype Fate = Consumed | Dropped

  /** A subscriber's queue, and what became of the scans offered to it, oldest first. */
  datatype Client = Client(queue: seq<Scan>, subscribed: bool, since: nat, offered: seq<Scan>, fates: seq<Fate>)

  function Offer(c: Client, scan: Scan): Client {
    if !c.subscribed then c
    else
      var full := |c.queue| >= CLIENT_QUEUE;
      c.(queue := (if full then c.queue[1..] else c.queue) + [scan], offered := c.offered + [scan],
         fates := if full then c.fates + [Dropped] else c.fates)
  }

  function Consume(c: Client): Client {
    if c.queue == [] then c else c.(queue := c.queue[1..], fates := c.fates + [Consumed])
  }

  function Count(fates: seq<Fate>, fate: Fate): nat {
    if fates == [] then 0
    else Count(fates[..|fates| - 1], fate) + if fates[|fates| - 1] == fate then 1 else 0
  }

  function TotalDropped(clients: seq<Client>): nat {
    if clients == [] then 0
    else TotalDropped(clients[..|clients| - 1]) + Count(clients[|clients| - 1].fates, Dropped)
  }

  /** The scans the subscriber got, in order. */
  function Received(offered: seq<Scan>, fates: seq<Fate>): seq<Scan>
    requires |fates| <= |offered|
  {
    if fates == [] then []
    else
      var n := |fates| - 1;
      Received(offered, fates[..n]) + if fates[n].Consumed? then [offered[n]] else []
  }

  /** Every scan published since the subscription has one fate or is among the newest, still queued. */
  predicate Served(c: Client, published: seq<Scan>) {
    && |c.fates| + |c.queue| == |c.offered| && |c.queue| <= CLIENT_QUEUE
    && c.queue == c.offered[|c.fates|..]
    && c.since + |c.offered| <= |published|
    && c.offered == published[c.since..c.since + |c.offered|]
    && (c.subscribed ==> c.since + |c.offered| == |published|)
  }

  // ---------------------------------------------------------------- a recording

  /** A scan published while the recording was attached, and whether the queue had room for it. */
  datatype Entrance = Entrance(scan: Scan, kept: bool)

  datatype Phase = Attached | Stopping | Stopped

  /**
   One recorder with its queue and task: `None` in the queue is the stop sentinel, `inFlight` the
   scan that the writing thread holds, `file` what it has written.
   */
  datatype Session = Session(
    queue: seq<Option<Scan>>, inFlight: Option<Scan>, file: seq<Scan>, closed: bool, phase: Phase,
    since: nat, entrances: seq<Entrance>)

  function Enter(s: Session, scan: Scan): Session {
    if s.closed then s
    else if |s.queue| >= RECORD_QUEUE then s.(entrances := s.entrances + [Entrance(scan, false)])
    else s.(queue := s.queue + [Some(scan)], entrances := s.entrances + [Entrance(scan, true)])
  }

  /** The task goes on: `queue.get`, and behind a sentinel `recorder.close`. */
  function Fetch(s: Session): Session {
    if s.closed || s.inFlight.Some? || s.queue == [] then s
    else if s.queue[0].None? then s.(queue := s.queue[1..], closed := true)
    else s.(queue := s.queue[1..], inFlight := s.queue[0])
  }

  /** The thread's `recorder.write` returns. */
  function Finish(s: Session): Session {
    if s.inFlight.None? then s else s.(file := s.file + [s.inFlight.value], inFlight := None)
  }

  /** `queue.put(None)`, once there is room. */
  function PutSentinel(s: Session): Session {
    if s.phase.Stopping? && |s.queue| < RECORD_QUEUE then s.(queue := s.queue + [None], phase := Stopped) else s
  }

  function Kept(e: seq<Entrance>): seq<Scan> {
    if e == [] then [] else Kept(e[..|e| - 1]) + if e[|e| - 1].kept then [e[|e| - 1].scan] else []
  }

  function Refused(e: seq<Entrance>): nat {
    if e == [] then 0 else Refused(e[..|e| - 1]) + if e[|e| - 1].kept then 0 else 1
  }

  function Seen(e: seq<Entrance>): (scans: seq<Scan>)
    ensures |scans| == |e|
  {
    seq(|e|, i requires 0 <= i < |e| => e[i].scan)
  }

  function TotalRefused(sessions: seq<Session>): nat {
    if sessions == [] then 0
    else TotalRefused(sessions[..|sessions| - 1]) + Refused(sessions[|sessions| - 1].entrances)
  }

  function Waiting(queue: seq<Option<Scan>>): seq<Scan> {
    if queue == [] then [] else (if queue[0].Some? then [queue[0].value] else []) + Waiting(queue[1..])
  }

  function Held(s: Session): seq<Scan> {
    s.file + (if s.inFlight.Some? then [s.inFlight.value] else []) + Waiting(s.queue)
  }

  /** Every scan that found room is written, in flight or queued, in order; a closed session has written them all. */
  predicate Recorded(s: Session, published: seq<Scan>) {
    && |s.queue| <= RECORD_QUEUE
    && Held(s) == Kept(s.entrances)
    && (forall i | 0 <= i < |s.queue| :: s.queue[i].None? ==> s.phase.Stopped? && i == |s.queue| - 1)
    && (s.phase.Stopped? && !s.closed ==> s.queue != [] && s.queue[|s.queue| - 1].None?)
    && (s.closed ==> s.phase.Stopped? && s.queue == [] && s.inFlight.None?)
    && s.since + |s.entrances| <= |published|
    && Seen(s.entrances) == published[s.since..s.since + |s.entrances|]
    && (s.phase.Attached? ==> s.since + |s.entrances| == |published|)
  }

  // ---------------------------------------------------------------- the service

  datatype State = State(
    published: seq<Scan>, clients: seq<Client>, clientDrops: nat,
    sessions: seq<Session>, current: Option<nat>, recordDrops: nat)

  const IDLE := State([], [], 0, [], None, 0)

  datatype Action =
    | Publish(scan: Scan)
    | Subscribe
    | Discard(client: nat)
    | Get(client: nat)
    | StartRecording(streaming: bool)
    | TaskFetches(session: nat)
    | TaskWrites(session: nat)
    | Detach
    | SentinelGoesIn(session: nat)

  function Offered(clients: seq<Client>, scan: Scan): (r: seq<Client>)
    ensures |r| == |clients|
  {
    seq(|clients|, i requires 0 <= i < |clients| => Offer(clients[i], scan))
  }

  function Crowded(clients: seq<Client>): nat {
    if clients == [] then 0
    else
      var c := clients[|clients| - 1];
      Crowded(clients[..|clients| - 1]) + if c.subscribed && |c.queue| >= CLIENT_QUEUE then 1 else 0
  }

  predicate Attentive(st: State) {
    st.current.Some? ==> st.current.value < |st.sessions|
  }

  function Published(st: State, scan: Scan): State
    requires Attentive(st)
  {
    var told := st.(published := st.published + [scan], clients := Offered(st.clients, scan),
                    clientDrops := st.clientDrops + Crowded(st.clients));
    if st.current.None? || st.sessions[st.current.value].closed then told
    else
      var j := st.current.value;
      told.(sessions := st.sessions[j := Enter(st.sessions[j], scan)],
            recordDrops := st.recordDrops + if |st.sessions[j].queue| >= RECORD_QUEUE then 1 else 0)
  }

  function Detached(st: State): State
    requires Attentive(st)
  {
    if st.current.None? then st
    else
      var j := st.current.value;
      st.(current := None, sessions := st.sessions[j := st.sessions[j].(phase := Stopping)])
  }

  function Step(st: State, a: Action): (r: State)
    requires Attentive(st)
    ensures Attentive(r)
  {
    match a
    case Publish(scan) => Published(st, scan)
    case Subscribe => st.(clients := st.clients + [Client([], true, |st.published|, [], [])])
    case Discard(i) =>
      if i < |st.clients| then st.(clients := st.clients[i := st.clients[i].(subscribed := false)]) else st
    case Get(i) => if i < |st.clients| then st.(clients := st.clients[i := Consume(st.clients[i])]) else st
    case StartRecording(streaming) =>
      if !streaming || st.current.Some? then st
      else st.(sessions := st.sessions + [Session([], None, [], false, Attached, |st.published|, [])],
               current := Some(|st.sessions|))
    case TaskFetches(j) => if j < |st.sessions| then st.(sessions := st.sessions[j := Fetch(st.sessions[j])]) else st
    case TaskWrites(j) => if j < |st.sessions| then st.(sessions := st.sessions[j := Finish(st.sessions[j])]) else st
    case Detach => Detached(st)
    case SentinelGoesIn(j) =>
      if j < |st.sessions| then st.(sessions := st.sessions[j := PutSentinel(st.sessions[j])]) else st
  }

  function Runs(actions: seq<Action>): (r: State)
    ensures Attentive(r)
  {
    if actions == [] then IDLE else Step(Runs(actions[..|actions| - 1]), actions[|actions| - 1])
  }

  /** The account of a whole run. */
  predicate Settled(st: State) {
    && Attentive(st)
    && (forall i | 0 <= i < |st.clients| :: Served(st.clients[i], st.published))
    && st.clientDrops == TotalDropped(st.clients)
    && (forall j | 0 <= j < |st.sessions| :: Recorded(st.sessions[j], st.published))
    && (forall j | 0 <= j < |st.sessions| :: st.sessions[j].phase.Attached? <==> st.current == Some(j))
    && st.recordDrops == TotalRefused(st.sessions)
  }

  // ---------------------------------------------------------------- subscribers keep their account

  lemma OfferServes(c: Client, published: seq<Scan>, scan: Scan)
    requires Served(c, published)
    ensures Served(Offer(c, scan), published + [scan])
    ensures Count(Offer(c, scan).fates, Dropped) ==
            Count(c.fates, Dropped) + if c.subscribed && |c.queue| >= CLIENT_QUEUE then 1 else 0
  {
    var d := Offer(c, scan);
    var all := published + [scan];
    if c.subscribed {
      assert all[c.since..c.since + |d.offered|] == published[c.since..] + [scan];
      if |c.queue| >= CLIENT_QUEUE {
        assert d.fates[..|c.fates|] == c.fates;
        assert c.queue[1..] == c.offered[|c.fates| + 1..];
      }
    } else {
      assert all[c.since..c.since + |c.offered|] == published[c.since..c.since + |c.offered|];
    }
  }

  lemma ConsumeServes(c: Client, published: seq<Scan>)
    requires Served(c, published)
    ensures Served(Consume(c), published)
    ensures Count(Consume(c).fates, Dropped) == Count(c.fates, Dropped)
  {
    if c.queue != [] {
      assert Consume(c).fates[..|c.fates|] == c.fates;
    }
  }

  lemma {:induction false} OfferedDrops(clients: seq<Client>, published: seq<Scan>, scan: Scan)
    requires forall i | 0 <= i < |clients| :: Served(clients[i], published)
    ensures TotalDropped(Offered(clients, scan)) == TotalDropped(clients) + Crowded(clients)
    decreases |clients|
  {
    hide Served, Offer, Count;
    if clients != [] {
      var n := |clients| - 1;
      OfferedDrops(clients[..n], published, scan);
      assert Offered(clients, scan)[..n] == Offered(clients[..n], scan);
      OfferServes(clients[n], published, scan);
    }
  }

  /** A client whose drops do not change leaves the total as it is. */
  lemma {:induction false} DropsReplace(clients: seq<Client>, i: nat, c: Client)
    requires i < |clients| && Count(c.fates, Dropped) == Count(clients[i].fates, Dropped)
    ensures TotalDropped(clients[i := c]) == TotalDropped(clients)
    decreases |clients|
  {
    hide Count;
    var n := |clients| - 1;
    if i < n {
      DropsReplace(clients[..n], i, c);
      assert clients[i := c][..n] == clients[..n][i := c];
    } else {
      assert clients[i := c][..n] == clients[..n];
    }
  }

  // ---------------------------------------------------------------- recordings keep theirs

  lemma {:induction false} WaitingMore(queue: seq<Option<Scan>>, last: Option<Scan>)
    ensures Waiting(queue + [last]) == Waiting(queue) + if last.Some? then [last.value] else []
    decreases |queue|
  {
    var all := queue + [last];
    if queue == [] {
      assert all[1..] == [];
      assert Waiting([]) == [];
    } else {
      assert all[1..] == queue[1..] + [last] && all[0] == queue[0];
      WaitingMore(queue[1..], last);
      Regroup(if queue[0].Some? then [queue[0].value] else [], Waiting(queue[1..]), if last.Some? then [last.value] else []);
    }
  }

  lemma LaterRecorded(s: Session, published: seq<Scan>, scan: Scan)
    requires Recorded(s, published) && !s.phase.Attached?
    ensures Recorded(s, published + [scan])
  {
    hide Held, Kept;
    var n := s.since + |s.entrances|;
    assert (published + [scan])[s.since..n] == published[s.since..n];
  }

  lemma EnterRecords(s: Session, published: seq<Scan>, scan: Scan)
    requires Recorded(s, published) && s.phase.Attached?
    ensures Recorded(Enter(s, scan), published + [scan])
    ensures Refused(Enter(s, scan).entrances) == Refused(s.entrances) + if |s.queue| >= RECORD_QUEUE then 1 else 0
  {
    hide Waiting;
    var t := Enter(s, scan);
    assert t.entrances[..|s.entrances|] == s.entrances;
    SeenMore(s, published, scan, |s.queue| < RECORD_QUEUE);
    hide Seen;
    if |s.queue| < RECORD_QUEUE {
      WaitingMore(s.queue, Some(scan));
      var front := s.file + (if s.inFlight.Some? then [s.inFlight.value] else []);
      Regroup(front, Waiting(s.queue), [scan]);
      assert Held(t) == Held(s) + [scan];
    }
  }

  lemma SeenMore(s: Session, published: seq<Scan>, scan: Scan, kept: bool)
    requires s.since + |s.entrances| == |published| && Seen(s.entrances) == published[s.since..]
    ensures Seen(s.entrances + [Entrance(scan, kept)]) == (published + [scan])[s.since..|published| + 1]
  {
  }

  lemma FetchRecords(s: Session, published: seq<Scan>)
    requires Recorded(s, published)
    ensures Recorded(Fetch(s), published)
  {
    hide Kept, Seen;
    if !(s.closed || s.inFlight.Some? || s.queue == []) {
      var t := Fetch(s);
      assert |t.queue| > 0 ==> t.queue[|t.queue| - 1] == s.queue[|s.queue| - 1];
      assert Waiting(s.queue) == (if s.queue[0].Some? then [s.queue[0].value] else []) + Waiting(t.queue);
      assert Held(t) == Held(s);
    }
  }

  lemma FinishRecords(s: Session, published: seq<Scan>)
    requires Recorded(s, published)
    ensures Recorded(Finish(s), published)
  {
    hide Kept, Seen, Waiting;
    assert Held(Finish(s)) == Held(s);
  }

  lemma SentinelRecords(s: Session, published: seq<Scan>)
    requires Recorded(s, published)
    ensures Recorded(PutSentinel(s), published)
  {
    hide Kept, Seen;
    if s.phase.Stopping? {
      WaitingMore(s.queue, None);
    }
  }

  lemma DetachRecords(s: Session, published: seq<Scan>)
    requires Recorded(s, published) && s.phase.Attached?
    ensures Recorded(s.(phase := Stopping), published)
  {
    hide Kept, Seen, Waiting;
  }

  lemma {:induction false} RefusedReplace(sessions: seq<Session>, j: nat, s: Session)
    requires j < |sessions|
    ensures TotalRefused(sessions[j := s]) ==
            TotalRefused(sessions) - Refused(sessions[j].entrances) + Refused(s.entrances)
    decreases |sessions|
  {
    hide Refused;
    var n := |sessions| - 1;
    if j < n {
      RefusedReplace(sessions[..n], j, s);
      assert sessions[j := s][..n] == sessions[..n][j := s];
    } else {
      assert sessions[j := s][..n] == sessions[..n];
    }
  }

  // ---------------------------------------------------------------- every step keeps the account

  lemma PublishSettles(st: State, scan: Scan)
    requires Settled(st)
    ensures Settled(Published(st, scan))
  {
    hide Served, Recorded, Offer, Enter, TotalDropped, TotalRefused, Crowded;
    var next := Published(st, scan);
    OfferedDrops(st.clients, st.published, scan);
    forall i | 0 <= i < |st.clients|
      ensures Served(next.clients[i], next.published)
    {
      OfferServes(st.clients[i], st.published, scan);
    }
    forall j | 0 <= j < |st.sessions|
      ensures Recorded(next.sessions[j], next.published) && next.sessions[j].phase == st.sessions[j].phase
    {
      EntersOnlyCurrent(st, scan, j);
    }
    if st.current.Some? {
      var j := st.current.value;
      AttachedIsOpen(st.sessions[j], st.published);
      EnterRecords(st.sessions[j], st.published, scan);
      RefusedReplace(st.sessions, j, Enter(st.sessions[j], scan));
    }
  }

  lemma AttachedIsOpen(s: Session, published: seq<Scan>)
    requires Recorded(s, published) && s.phase.Attached?
    ensures !s.closed
  {
  }

  lemma EntersOnlyCurrent(st: State, scan: Scan, j: nat)
    requires Settled(st) && j < |st.sessions|
    ensures var next := Published(st, scan);
      |next.sessions| == |st.sessions| && Recorded(next.sessions[j], next.published)
      && next.sessions[j].phase == st.sessions[j].phase
  {
    hide Served, Recorded, Offered, TotalDropped, TotalRefused, Crowded;
    if st.current == Some(j) {
      AttachedIsOpen(st.sessions[j], st.published);
      EnterRecords(st.sessions[j], st.published, scan);
    } else {
      LaterRecorded(st.sessions[j], st.published, scan);
    }
  }

  /** One client changes and drops nothing. */
  lemma ClientSettles(st: State, i: nat, c: Client)
    requires Settled(st) && i < |st.clients| && Served(c, st.published)
    requires Count(c.fates, Dropped) == Count(st.clients[i].fates, Dropped)
    ensures Settled(st.(clients := st.clients[i := c]))
  {
    hide Served, Recorded, Count, TotalRefused;
    DropsReplace(st.clients, i, c);
  }

  /** One session moves on and nothing new is offered to it. */
  lemma SessionSettles(st: State, j: nat, s: Session)
    requires Settled(st) && j < |st.sessions| && Recorded(s, st.published)
    requires s.entrances == st.sessions[j].entrances && s.phase.Attached? == st.sessions[j].phase.Attached?
    ensures Settled(st.(sessions := st.sessions[j := s]))
  {
    hide Served, Recorded, TotalDropped, Refused;
    RefusedReplace(st.sessions, j, s);
  }

  lemma DetachSettles(st: State)
    requires Settled(st)
    ensures Settled(Detached(st))
  {
    hide Served, Recorded, TotalDropped, Refused;
    if st.current.Some? {
      var j := st.current.value;
      DetachRecords(st.sessions[j], st.published);
      RefusedReplace(st.sessions, j, st.sessions[j].(phase := Stopping));
    }
  }

  lemma SubscribeSettles(st: State)
    requires Settled(st)
    ensures Settled(Step(st, Subscribe))
  {
    hide Recorded, TotalRefused;
    var next := Step(st, Subscribe);
    assert next.clients[..|st.clients|] == st.clients;
  }

  lemma FreshRecorded(published: seq<Scan>)
    ensures Recorded(Session([], None, [], false, Attached, |published|, []), published)
  {
  }

  lemma StartSettles(st: State, streaming: bool)
    requires Settled(st)
    ensures Settled(Step(st, StartRecording(streaming)))
  {
    hide Served, TotalDropped, Recorded;
    var next := Step(st, StartRecording(streaming));
    if streaming && st.current.None? {
      FreshRecorded(st.published);
      assert next.sessions[..|st.sessions|] == st.sessions;
    }
  }

  lemma StepSettles(st: State, a: Action)
    requires Settled(st)
    ensures Settled(Step(st, a))
  {
    hide Served, Recorded, Count, TotalDropped, TotalRefused, Published, Detached, Fetch, Finish, PutSentinel, Consume;
    match a
    case Publish(scan) => PublishSettles(st, scan);
    case Subscribe => SubscribeSettles(st);
    case Discard(i) =>
      if i < |st.clients| {
        DiscardServes(st.clients[i], st.published);
        ClientSettles(st, i, st.clients[i].(subscribed := false));
      }
    case Get(i) =>
      if i < |st.clients| {
        ConsumeServes(st.clients[i], st.published);
        ClientSettles(st, i, Consume(st.clients[i]));
      }
    case StartRecording(streaming) => StartSettles(st, streaming);
    case Detach => DetachSettles(st);
    case _ => TaskSettles(st, a);
  }

  lemma TaskSettles(st: State, a: Action)
    requires Settled(st) && (a.TaskFetches? || a.TaskWrites? || a.SentinelGoesIn?)
    ensures Settled(Step(st, a))
  {
    hide Served, Recorded, TotalDropped, TotalRefused;
    if a.session < |st.sessions| {
      var s := st.sessions[a.session];
      FetchRecords(s, st.published);
      FinishRecords(s, st.published);
      SentinelRecords(s, st.published);
      SessionSettles(st, a.session, if a.TaskFetches? then Fetch(s) else if a.TaskWrites? then Finish(s) else PutSentinel(s));
    }
  }

  lemma DiscardServes(c: Client, published: seq<Scan>)
    requires Served(c, published)
    ensures Served(c.(subscribed := false), published)
  {
  }

  lemma {:induction false} RunsSettled(actions: seq<Action>)
    ensures Settled(Runs(actions))
    decreases |actions|
  {
    hide Settled, Step;
    if actions == [] {
      IdleSettled();
    } else {
      RunsSettled(actions[..|actions| - 1]);
      StepSettles(Runs(actions[..|actions| - 1]), actions[|actions| - 1]);
    }
  }

  lemma IdleSettled()
    ensures Settled(IDLE)
  {
  }

  // ---------------------------------------------------------------- what the account says

  lemma {:induction false} FatesCounted(offered: seq<Scan>, fates: seq<Fate>)
    requires |fates| <= |offered|
    ensures |fates| == Count(fates, Consumed) + Count(fates, Dropped)
    ensures |Received(offered, fates)| == Count(fates, Consumed)
    decreases |fates|
  {
    if fates != [] {
      FatesCounted(offered, fates[..|fates| - 1]);
    }
  }

  lemma {:induction false} EntrancesCounted(e: seq<Entrance>)
    ensures |e| == |Kept(e)| + Refused(e)
    decreases |e|
  {
    if e != [] {
      EntrancesCounted(e[..|e| - 1]);
    }
  }

  /** What a whole run leaves with subscriber `i`. */
  lemma {:induction false} SubscribersServed(actions: seq<Action>, i: nat)
    requires i < |Runs(actions).clients|
    ensures var st := Runs(actions); var c := st.clients[i];
      && c.since <= |st.published| && |c.queue| <= 2 && |c.queue| <= |c.offered|
      && c.queue == c.offered[|c.offered| - |c.queue|..]
      && c.offered <= st.published[c.since..]
      && (c.subscribed ==> c.offered == st.published[c.since..])
      && |c.fates| <= |c.offered|
      && |c.offered| == |Received(c.offered, c.fates)| + Count(c.fates, Dropped) + |c.queue|
      && st.clientDrops == TotalDropped(st.clients)
  {
    hide Runs, Recorded, TotalDropped, TotalRefused, Count, Received;
    RunsSettled(actions);
    var st := Runs(actions);
    var c := st.clients[i];
    assert Served(c, st.published);
    FatesCounted(c.offered, c.fates);
    assert st.published[c.since..][..|c.offered|] == st.published[c.since..c.since + |c.offered|];
  }

  /**
   What a whole run leaves in recording `j`: once its task has ended, the file holds in order and
   exactly once every scan that found room, and those and the refused ones are all the scans
   published from its start to its stop.
   */
  lemma {:induction false} RecordingComplete(actions: seq<Action>, j: nat)
    requires j < |Runs(actions).sessions|
    ensures var st := Runs(actions); var s := st.sessions[j];
      && s.file <= Kept(s.entrances)
      && (s.closed ==> s.file == Kept(s.entrances) && |s.entrances| == |s.file| + Refused(s.entrances))
      && s.since + |s.entrances| <= |st.published|
      && Seen(s.entrances) == st.published[s.since..s.since + |s.entrances|]
      && (st.current == Some(j) ==> s.since + |s.entrances| == |st.published|)
      && st.recordDrops == TotalRefused(st.sessions)
  {
    hide Runs, Served, TotalDropped, TotalRefused, Refused, Kept, Seen;
    RunsSettled(actions);
    var st := Runs(actions);
    var s := st.sessions[j];
    assert Recorded(s, st.published);
    EntrancesCounted(s.entrances);
    assert Waiting([]) == [];
  }

  /** Once a recording is detached, no step of anyone offers it another scan. */
  lemma DetachedForGood(st: State, a: Action, j: nat)
    requires Settled(st) && j < |st.sessions| && !st.sessions[j].phase.Attached?
    ensures j < |Step(st, a).sessions|
    ensures Step(st, a).sessions[j].entrances == st.sessions[j].entrances
    ensures !Step(st, a).sessions[j].phase.Attached?
  {
    hide Served, Recorded, TotalDropped, TotalRefused, Crowded, Offered;
  }

  // ---------------------------------------------------------------- the service itself

  class Service {
    var published: seq<Scan>
    var clients: seq<Client>
    var clientDrops: nat
    var sessions: seq<Session>
    var current: Option<nat>
    var recordDrops: nat

    ghost function Value(): State
      reads this
    {
      State(published, clients, clientDrops, sessions, current, recordDrops)
    }

    constructor ()
      ensures Value() == IDLE
    {
      published, clients, clientDrops, sessions, current, recordDrops := [], [], 0, [], None, 0;
    }

    /** `publish`: the oldest scan makes room in a subscriber's queue, the newest is refused by the recorder's. */
    method PublishScan(scan: Scan)
      requires Settled(Value())
      modifies this
      ensures Value() == Step(old(Value()), Publish(scan)) && Settled(Value())
    {
      hide Served, Recorded, TotalDropped, TotalRefused, Offer, Enter;
      PublishSettles(Value(), scan);
      published := published + [scan];
      OfferToAll(scan);
      if current.Some? && !sessions[current.value].closed {
        EnterCurrent(scan);
      }
    }

    method OfferToAll(scan: Scan)
      modifies this`clients, this`clientDrops
      ensures clients == Offered(old(clients), scan)
      ensures clientDrops == old(clientDrops) + Crowded(old(clients))
    {
      ghost var before := clients;
      var i := 0;
      while i < |clients|
        invariant 0 <= i <= |clients| == |before|
        invariant forall k | 0 <= k < i :: clients[k] == Offer(before[k], scan)
        invariant forall k | i <= k < |before| :: clients[k] == before[k]
        invariant clientDrops == old(clientDrops) + Crowded(before[..i])
      {
        var c := clients[i];
        assert before[..i + 1][..i] == before[..i];
        if c.subscribed {
          if |c.queue| >= CLIENT_QUEUE {
            c := c.(queue := c.queue[1..], fates := c.fates + [Dropped]);
            clientDrops := clientDrops + 1;
          }
          c := c.(queue := c.queue + [scan], offered := c.offered + [scan]);
        }
        clients := clients[i := c];
        i := i + 1;
      }
      assert before[..i] == before;
    }

    method EnterCurrent(scan: Scan)
      requires Attentive(Value()) && current.Some? && !sessions[current.value].closed
      modifies this`sessions, this`recordDrops
      ensures sessions == old(sessions)[current.value := Enter(old(sessions)[current.value], scan)]
      ensures recordDrops == old(recordDrops) + if |old(sessions)[current.value].queue| >= RECORD_QUEUE then 1 else 0
    {
      var j := current.value;
      var s := sessions[j];
      if |s.queue| >= RECORD_QUEUE {
        recordDrops := recordDrops + 1;
        sessions := sessions[j := s.(entrances := s.entrances + [Entrance(scan, false)])];
      } else {
        sessions := sessions[j := s.(queue := s.queue + [Some(scan)], entrances := s.entrances + [Entrance(scan, true)])];
      }
    }

    /** `subscribe`; the subscriber's number stands for its queue. */
    method SubscribeClient() returns (client: nat)
      requires Settled(Value())
      modifies this`clients
      ensures Value() == Step(old(Value()), Subscribe) && Settled(Value()) && client == |old(clients)|
    {
      hide Settled;
      StepSettles(Value(), Subscribe);
      client := |clients|;
      clients := clients + [Client([], true, |published|, [], [])];
    }

    /** `queue.get` by a client; None while it has to wait. */
    method GetScan(client: nat) returns (scan: Option<Scan>)
      requires Settled(Value()) && client < |clients|
      modifies this`clients
      ensures Value() == Step(old(Value()), Get(client)) && Settled(Value())
      ensures scan.Some? == (old(clients)[client].queue != [])
      ensures scan.Some? ==> scan.value == old(clients)[client].queue[0]
    {
      hide Settled;
      StepSettles(Value(), Get(client));
      var c := clients[client];
      if c.queue == [] {
        assert clients[client := c] == clients;
        return None;
      }
      scan := Some(c.queue[0]);
      clients := clients[client := c.(queue := c.queue[1..], fates := c.fates + [Consumed])];
    }

    /** `start_recording`; false where it raises. */
    method StartRecordingScans(streaming: bool) returns (ok: bool)
      requires Settled(Value())
      modifies this`sessions, this`current
      ensures Value() == Step(old(Value()), StartRecording(streaming)) && Settled(Value())
      ensures ok == streaming && (ok ==> current.Some?)
    {
      hide Settled;
      StepSettles(Value(), StartRecording(streaming));
      if !streaming {
        return false;
      }
      if current.None? {
        current := Some(|sessions|);
        sessions := sessions + [Session([], None, [], false, Attached, |published|, [])];
      }
      return true;
    }

    /** One turn of the loop of `_record`: the next item and its write, or the end of the task. */
    method RecordTurn(j: nat)
      requires Settled(Value()) && j < |sessions| && sessions[j].inFlight.None?
      modifies this`sessions
      ensures Value() == Step(Step(old(Value()), TaskFetches(j)), TaskWrites(j)) && Settled(Value())
    {
      hide Settled;
      StepSettles(Value(), TaskFetches(j));
      StepSettles(Step(Value(), TaskFetches(j)), TaskWrites(j));
      var s := sessions[j];
      if s.closed || s.queue == [] {
        assert sessions[j := s] == sessions;
        return;
      }
      var item := s.queue[0];
      s := s.(queue := s.queue[1..]);
      if item.Some? {
        s := s.(file := s.file + [item.value]);
      } else {
        s := s.(closed := true);
      }
      assert sessions[j := Fetch(sessions[j])][j := s] == sessions[j := s];
      sessions := sessions[j := s];
    }

    /**
     `stop_recording`, with the recorder's task running whenever the stop waits for it: it comes to
     an end, and the file then holds exactly the scans that had found room.
     */
    method StopRecording() returns (stopped: Option<nat>)
      requires Settled(Value())
      modifies this`sessions, this`current
      ensures Settled(Value()) && current.None? && stopped == old(current)
      ensures |sessions| == |old(sessions)|
      ensures stopped.Some? ==>
        && var s := sessions[stopped.value]; var was := old(sessions)[stopped.value];
        && s.closed && s.entrances == was.entrances && s.file == Kept(was.entrances)
        && forall i | 0 <= i < |sessions| && i != stopped.value :: sessions[i] == old(sessions)[i]
      ensures stopped.None? ==> sessions == old(sessions)
    {
      hide Settled, Kept;
      stopped := DetachCurrent();
      if stopped.Some? {
        RunDown(stopped.value);
      }
    }

    /** The references are cleared before anything is awaited. */
    method DetachCurrent() returns (stopped: Option<nat>)
      requires Settled(Value())
      modifies this`sessions, this`current
      ensures Value() == Step(old(Value()), Detach) && Settled(Value())
      ensures current.None? && stopped == old(current) && (stopped.Some? ==> stopped.value < |old(sessions)|)
      ensures sessions == if stopped.None? then old(sessions) else
        old(sessions)[stopped.value := old(sessions)[stopped.value].(phase := Stopping)]
    {
      DetachSettles(Value());
      hide Settled;
      stopped := current;
      if current.Some? {
        var j := current.value;
        sessions := sessions[j := sessions[j].(phase := Stopping)];
        current := None;
      }
    }

    /** The writing thread's `recorder.write` returns. */
    method FinishWrite(j: nat)
      requires Settled(Value()) && j < |sessions|
      modifies this`sessions
      ensures Value() == Step(old(Value()), TaskWrites(j)) && Settled(Value())
    {
      hide Settled;
      StepSettles(Value(), TaskWrites(j));
      var s := sessions[j];
      if s.inFlight.Some? {
        s := s.(file := s.file + [s.inFlight.value], inFlight := None);
      }
      sessions := sessions[j := s];
    }

    /** `await queue.put(None)` as far as it gets. */
    method PutStop(j: nat)
      requires Settled(Value()) && j < |sessions|
      modifies this`sessions
      ensures Value() == Step(old(Value()), SentinelGoesIn(j)) && Settled(Value())
    {
      hide Settled;
      StepSettles(Value(), SentinelGoesIn(j));
      var s := sessions[j];
      if s.phase.Stopping? && |s.queue| < RECORD_QUEUE {
        s := s.(queue := s.queue + [None], phase := Stopped);
      }
      sessions := sessions[j := s];
    }

    /** The sentinel goes in as soon as there is room, and the task works its way to it. */
    method RunDown(j: nat)
      requires Settled(Value()) && j < |sessions| && sessions[j].phase.Stopping?
      modifies this`sessions
      ensures Settled(Value()) && |sessions| == |old(sessions)|
      ensures sessions[j].closed && sessions[j].entrances == old(sessions)[j].entrances
      ensures sessions[j].file == Kept(old(sessions)[j].entrances)
      ensures forall i | 0 <= i < |sessions| && i != j :: sessions[i] == old(sessions)[i]
    {
      hide Settled, Kept;
      FinishWrite(j);
      while !sessions[j].closed
        invariant Settled(Value()) && |sessions| == |old(sessions)|
        invariant sessions[j].inFlight.None? && !sessions[j].phase.Attached?
        invariant sessions[j].entrances == old(sessions)[j].entrances
        invariant forall i | 0 <= i < |sessions| && i != j :: sessions[i] == old(sessions)[i]
        decreases sessions[j].phase.Stopping?, |sessions[j].queue|
      {
        PutStop(j);
        StoppedHasMore(Value(), j);
        RecordTurn(j);
      }
      ClosedHoldsAll(Value(), j);
    }
  }

  lemma StoppedHasMore(st: State, j: nat)
    requires Settled(st) && j < |st.sessions| && !st.sessions[j].closed && !st.sessions[j].phase.Attached?
    ensures st.sessions[j].phase.Stopped? ==> st.sessions[j].queue != []
  {
    hide Kept, Held, Served;
    assert Recorded(st.sessions[j], st.published);
  }

  lemma ClosedHoldsAll(st: State, j: nat)
    requires Settled(st) && j < |st.sessions| && st.sessions[j].closed
    ensures st.sessions[j].file == Kept(st.sessions[j].entrances)
  {
    hide Kept, Served;
    assert Recorded(st.sessions[j], st.published);
    assert Waiting([]) == [];
  }
}
