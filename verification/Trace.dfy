/** What a run of `initialize` may write, read off the trace of its actions. */
module Trace {
  import opened Bytes
  import opened Framing
  import opened Commands
  import opened StateMachine

  // ---------------------------------------------------------------- the account of a run

  /** What a run is to achieve, and the configuration block the device knew when it began. */
  datatype Terms = Terms(settings: Settings, known: Option<Bytes>)

  datatype Tally = Tally(
    installs: nat, bauds: nat, variants: nat, stores: nat, starts: nat, installed: bool, mutated: bool)

  /**
   The account of the actions so far.  `base` is the block the changes start from; `config` and
   `status` are what the scanner has reported since the last change, the status behind the block;
   `stopped` that a stop was confirmed behind a matching readback; `safe` drops at the first write
   that is not allowed.
   */
  datatype Monitor = Monitor(
    tally: Tally, base: Option<Bytes>, config: Option<Bytes>, status: Option<DeviceStatus>, stopped: bool, safe: bool)

  const NOTHING := Tally(0, 0, 0, 0, 0, false, false)

  /** The block that the settings ask for. */
  function Plan(settings: Settings, base: Bytes): Bytes
    requires IsConfiguration(base)
  {
    Updated(base, settings.millimetres, settings.indices)
  }

  /** The scanner reports what was asked for. */
  predicate ReadsBack(settings: Settings, desired: Bytes, configuration: Bytes, info: DeviceStatus) {
    && IsConfiguration(desired) && configuration == desired
    && info.angle == settings.angle && info.resolution == settings.resolution
    && info.millimetres == (desired[6] == 1) && info.measuringMode == desired[5]
  }

  /** The telegram is what the settings, and for a block also the block before it, call for. */
  predicate Asks(settings: Settings, base: Option<Bytes>, name: Name, payload: Bytes) {
    match name
    case Installation => payload == [0x20, 0x00] + settings.password
    case BaudRate => settings.targetBaud.Some? && payload == [0x20, BaudCode(settings.targetBaud.value)]
    case ScanVariant =>
      ValidGeometry(settings.angle, settings.resolution)
      && payload == [0x3B] + Split(settings.angle) + Split(settings.resolution)
    case WriteConfiguration =>
      base.Some? && IsConfiguration(base.value) && payload == [0x77] + Plan(settings, base.value)
    case _ => true
  }

  /** Configuration and status were read behind the last change and are as they should be. */
  predicate Matched(t: Terms, m: Monitor) {
    && m.base.Some? && IsConfiguration(m.base.value) && m.config.Some? && m.status.Some?
    && ReadsBack(t.settings, Plan(t.settings, m.base.value), m.config.value, m.status.value)
  }

  /** Writes that a readback has to come behind. */
  predicate Changes(name: Name) {
    name in {BaudRate, ScanVariant, WriteConfiguration}
  }

  predicate Allowed(t: Terms, m: Monitor, name: Name, payload: Bytes) {
    && Asks(t.settings, m.base, name, payload)
    && match name
       case Installation => m.tally.installs == 0
       case BaudRate => m.tally.bauds == 0
       case ScanVariant => m.tally.variants == 0 && m.tally.installed
       case WriteConfiguration => m.tally.stores == 0 && m.tally.installed
       case Continuous => m.tally.starts == 0 && m.stopped && Matched(t, m)
       case _ => true
  }

  function Counted(tally: Tally, name: Name): Tally {
    match name
    case Installation => tally.(mutated := true, installs := tally.installs + 1)
    case BaudRate => tally.(mutated := true, bauds := tally.bauds + 1)
    case ScanVariant => tally.(mutated := true, variants := tally.variants + 1)
    case WriteConfiguration => tally.(mutated := true, stores := tally.stores + 1)
    case Continuous => tally.(mutated := true, starts := tally.starts + 1)
    case OnRequest => tally.(mutated := true)
    case _ => tally
  }

  function AfterWrite(t: Terms, m: Monitor, name: Name, payload: Bytes): Monitor {
    var stays := !Changes(name);
    Monitor(Counted(m.tally, name), m.base, if stays then m.config else None, if stays then m.status else None,
            stays && m.stopped, m.safe && Allowed(t, m, name, payload))
  }

  function AfterReply(t: Terms, m: Monitor, name: Name, r: Response): Monitor {
    match name
    case Installation => m.(tally := m.tally.(installed := true))
    case ReadConfiguration =>
      m.(base := if m.tally.mutated then m.base else Some(r.data), config := Some(r.data), status := None, stopped := false)
    case StatusRequest =>
      var decoded := DecodeStatus(r);
      m.(status := if decoded.Ok? then Some(decoded.value) else None, stopped := false)
    case OnRequest => m.(stopped := Matched(t, m))
    case _ => m
  }

  function Advance(t: Terms, m: Monitor, a: Action): Monitor {
    match a
    case Wrote(name, payload, _) => AfterWrite(t, m, name, payload)
    case Obtained(name, r) => AfterReply(t, m, name, r)
    case _ => m
  }

  function After(t: Terms, run: seq<Action>): Monitor {
    if run == [] then Monitor(NOTHING, t.known, None, None, false, true)
    else Advance(t, After(t, run[..|run| - 1]), run[|run| - 1])
  }

  lemma AfterSnoc(t: Terms, run: seq<Action>, a: Action)
    ensures After(t, run + [a]) == Advance(t, After(t, run), a)
  {
    assert (run + [a])[..|run|] == run;
  }

  // ---------------------------------------------------------------- one command in the account

  /** Requests that only read leave the account as it is, however often they are repeated. */
  lemma {:induction false} AfterReads(t: Terms, run: seq<Action>, cmd: Command, attempts: seq<Action>, from: nat)
    requires !Mutates(cmd.name) && AreAttempts(cmd, attempts, from)
    ensures After(t, run + attempts) == After(t, run)
    decreases |attempts|
  {
    hide After, Advance;
    if attempts == [] {
      AppendNothing(run);
    } else {
      var n := |attempts| - 1;
      var last := attempts[n];
      AfterReads(t, run, cmd, attempts[..n], from);
      AfterSnoc(t, run + attempts[..n], last);
      assert attempts == attempts[..n] + [last];
      Regroup(run, attempts[..n], [last]);
      ReadKeeps(t, After(t, run), last);
    }
  }

  lemma ReadKeeps(t: Terms, m: Monitor, a: Action)
    requires a.Wrote? && !Mutates(a.name)
    ensures Advance(t, m, a) == m
  {
  }

  /** A whole `command`. */
  lemma AfterCommand(t: Terms, run: seq<Action>, cmd: Command, attempts: seq<Action>, from: nat, r: Result<Response>)
    requires Built(cmd) && AreAttempts(cmd, attempts, from) && 1 <= |attempts| <= cmd.attempts
    ensures var m := AfterWrite(t, After(t, run), cmd.name, cmd.payload);
      After(t, run + attempts + (if r.Ok? then [Obtained(cmd.name, r.value)] else []))
      == if r.Ok? then AfterReply(t, m, cmd.name, r.value) else m
  {
    hide After, AfterWrite, AfterReply;
    var wrote := attempts[0];
    if cmd.mutates {
      assert attempts == [wrote];
      AfterSnoc(t, run, wrote);
    } else {
      AfterReads(t, run, cmd, attempts, from);
      ReadKeeps(t, After(t, run), wrote);
    }
    AppendNothing(run + attempts);
    if r.Ok? {
      AfterSnoc(t, run + attempts, Obtained(cmd.name, r.value));
    }
  }

  // ---------------------------------------------------------------- replies stay vouched for

  lemma VouchedLater(arrived: seq<Arrival>, later: seq<Arrival>, mark: int, id: Byte, payload: Bytes, response: Response)
    requires Vouched(arrived, mark, id, payload, response) && arrived <= later
    ensures Vouched(later, mark, id, payload, response)
  {
    var a, b :| mark <= a < b < |arrived| && a >= 0 && arrived[a] == Ack && arrived[b] == Reply(response);
    assert later[a] == Ack && later[b] == Reply(response);
  }

  lemma GroundedLater(run: seq<Action>, arrived: seq<Arrival>, later: seq<Arrival>)
    requires Grounded(run, arrived) && arrived <= later
    ensures Grounded(run, later)
  {
    hide Vouched;
    forall k | 0 <= k < |run| && run[k].Obtained?
      ensures k >= 1 && run[k - 1].Wrote? && run[k - 1].name == run[k].name
      ensures Vouched(later, run[k - 1].mark, ReplyId(run[k].name), run[k - 1].payload, run[k].response)
    {
      VouchedLater(arrived, later, run[k - 1].mark, ReplyId(run[k].name), run[k - 1].payload, run[k].response);
    }
  }

  lemma GroundedConcat(run: seq<Action>, more: seq<Action>, arrived: seq<Arrival>)
    requires Grounded(run, arrived) && Grounded(more, arrived)
    ensures Grounded(run + more, arrived)
  {
    hide Vouched;
    var all := run + more;
    forall k | 0 <= k < |all| && all[k].Obtained?
      ensures k >= 1 && all[k - 1].Wrote? && all[k - 1].name == all[k].name
      ensures Vouched(arrived, all[k - 1].mark, ReplyId(all[k].name), all[k - 1].payload, all[k].response)
    {
      if k >= |run| {
        assert all[k] == more[k - |run|];
        assert all[k - 1] == more[k - 1 - |run|];
      }
    }
  }

  lemma GroundedCommand(arrived: seq<Arrival>, cmd: Command, attempts: seq<Action>, from: nat, r: Result<Response>)
    requires Built(cmd) && AreAttempts(cmd, attempts, from)
    requires r.Ok? ==>
      attempts != [] && Vouched(arrived, attempts[|attempts| - 1].mark, cmd.responseId, cmd.payload, r.value)
    ensures Grounded(attempts + (if r.Ok? then [Obtained(cmd.name, r.value)] else []), arrived)
  {
    hide Vouched;
  }

  // ---------------------------------------------------------------- what the account says about the trace

  /** A confirmed reply to this command. */
  predicate IsReply(run: seq<Action>, k: int, name: Name) {
    0 <= k < |run| && run[k].Obtained? && run[k].name == name
  }

  predicate IsWrite(run: seq<Action>, k: int, name: Name) {
    0 <= k < |run| && run[k].Wrote? && run[k].name == name
  }

  function WritesOf(run: seq<Action>, name: Name): nat {
    if run == [] then 0
    else WritesOf(run[..|run| - 1], name) + (if run[|run| - 1].Wrote? && run[|run| - 1].name == name then 1 else 0)
  }

  /** No baud rate, variant or configuration is written behind position `k`, up to `n`. */
  predicate Unchanged(run: seq<Action>, k: int, n: int) {
    forall j | k < j < n && 0 <= j < |run| :: !(run[j].Wrote? && Changes(run[j].name))
  }

  predicate NoReplyBehind(run: seq<Action>, k: int, name: Name) {
    forall j | k < j < |run| :: !IsReply(run, j, name)
  }

  predicate HasMutated(run: seq<Action>) {
    exists k | 0 <= k < |run| :: run[k].Wrote? && Mutates(run[k].name)
  }

  /** The last block read before the first mutating command, or else the one known beforehand. */
  function StartingBlock(t: Terms, run: seq<Action>): Option<Bytes> {
    if run == [] then t.known
    else
      var n := |run| - 1;
      if IsReply(run, n, ReadConfiguration) && !HasMutated(run[..n]) then Some(run[n].response.data)
      else StartingBlock(t, run[..n])
  }

  lemma {:induction false} MutatedRead(t: Terms, run: seq<Action>)
    ensures After(t, run).tally.mutated <==> HasMutated(run)
    decreases |run|
  {
    if run != [] {
      var n := |run| - 1;
      MutatedRead(t, run[..n]);
      AdvanceMutated(t, After(t, run[..n]), run[n]);
      hide Advance;
      if HasMutated(run[..n]) {
        var k :| 0 <= k < n && run[..n][k].Wrote? && Mutates(run[..n][k].name);
        assert run[k].Wrote? && Mutates(run[k].name);
      }
      if HasMutated(run) && !(run[n].Wrote? && Mutates(run[n].name)) {
        var k :| 0 <= k < |run| && run[k].Wrote? && Mutates(run[k].name);
        assert run[..n][k].Wrote? && Mutates(run[..n][k].name);
      }
    }
  }

  lemma AdvanceMutated(t: Terms, m: Monitor, a: Action)
    ensures Advance(t, m, a).tally.mutated == (m.tally.mutated || (a.Wrote? && Mutates(a.name)))
  {
    hide Allowed, Matched;
  }

  lemma {:induction false} BaseRead(t: Terms, run: seq<Action>)
    ensures After(t, run).base == StartingBlock(t, run)
    decreases |run|
  {
    if run != [] {
      var n := |run| - 1;
      BaseRead(t, run[..n]);
      MutatedRead(t, run[..n]);
      AdvanceBase(t, After(t, run[..n]), run[n]);
    }
  }

  lemma AdvanceBase(t: Terms, m: Monitor, a: Action)
    ensures Advance(t, m, a).base ==
      if a.Obtained? && a.name == ReadConfiguration && !m.tally.mutated then Some(a.response.data) else m.base
  {
    hide Allowed, Matched;
  }

  /** Where the account's block was read: nothing has been changed behind it. */
  lemma {:induction false} ConfigRead(t: Terms, run: seq<Action>) returns (c: int)
    requires After(t, run).config.Some?
    ensures IsReply(run, c, ReadConfiguration) && run[c].response.data == After(t, run).config.value
    ensures Unchanged(run, c, |run|)
    decreases |run|
  {
    var n := |run| - 1;
    var a := run[n];
    AdvanceConfig(t, After(t, run[..n]), a);
    hide Advance;
    if a.Obtained? && a.name == ReadConfiguration {
      c := n;
    } else {
      c := ConfigRead(t, run[..n]);
    }
  }

  lemma AdvanceConfig(t: Terms, m: Monitor, a: Action)
    ensures var n := Advance(t, m, a);
      n.config.Some? ==>
        if a.Obtained? && a.name == ReadConfiguration then n.config.value == a.response.data
        else m.config == n.config && !(a.Wrote? && Changes(a.name))
  {
    hide Allowed, Matched;
  }

  /** Where its status was read: behind the block, and nothing has been changed since. */
  lemma {:induction false} StatusRead(t: Terms, run: seq<Action>) returns (s: int)
    requires After(t, run).status.Some?
    ensures IsReply(run, s, StatusRequest) && DecodeStatus(run[s].response) == Ok(After(t, run).status.value)
    ensures Unchanged(run, s, |run|) && NoReplyBehind(run, s, ReadConfiguration)
    decreases |run|
  {
    hide DecodeStatus;
    var n := |run| - 1;
    var a := run[n];
    AdvanceStatus(t, After(t, run[..n]), a);
    hide Advance;
    if a.Obtained? && a.name == StatusRequest {
      s := n;
    } else {
      s := StatusRead(t, run[..n]);
      forall j | s < j < |run|
        ensures !IsReply(run, j, ReadConfiguration)
      {
        if j < n {
          assert !IsReply(run[..n], j, ReadConfiguration);
        }
      }
    }
  }

  lemma AdvanceStatus(t: Terms, m: Monitor, a: Action)
    ensures var n := Advance(t, m, a);
      n.status.Some? ==>
        if a.Obtained? && a.name == StatusRequest then DecodeStatus(a.response) == Ok(n.status.value)
        else m.status == n.status && !(a.Wrote? && Changes(a.name)) && !(a.Obtained? && a.name == ReadConfiguration)
  {
    hide Allowed, Matched, DecodeStatus;
  }

  /** Where the stop was confirmed: behind the status. */
  lemma {:induction false} StopRead(t: Terms, run: seq<Action>) returns (o: int)
    requires After(t, run).stopped
    ensures IsReply(run, o, OnRequest) && NoReplyBehind(run, o, StatusRequest)
    decreases |run|
  {
    var n := |run| - 1;
    var a := run[n];
    AdvanceStopped(t, After(t, run[..n]), a);
    hide Advance;
    if a.Obtained? && a.name == OnRequest {
      o := n;
    } else {
      o := StopRead(t, run[..n]);
      forall j | o < j < |run|
        ensures !IsReply(run, j, StatusRequest)
      {
        if j < n {
          assert !IsReply(run[..n], j, StatusRequest);
        }
      }
    }
  }

  lemma AdvanceStopped(t: Terms, m: Monitor, a: Action)
    ensures Advance(t, m, a).stopped ==>
      (a.Obtained? && a.name == OnRequest) || (m.stopped && !(a.Obtained? && a.name == StatusRequest))
  {
    hide Allowed, Matched, DecodeStatus;
  }

  lemma {:induction false} InstalledRead(t: Terms, run: seq<Action>) returns (j: int)
    requires After(t, run).tally.installed
    ensures IsReply(run, j, Installation)
    decreases |run|
  {
    var n := |run| - 1;
    AdvanceInstalled(t, After(t, run[..n]), run[n]);
    hide Advance;
    if IsReply(run, n, Installation) {
      j := n;
    } else {
      j := InstalledRead(t, run[..n]);
    }
  }

  lemma AdvanceInstalled(t: Terms, m: Monitor, a: Action)
    ensures Advance(t, m, a).tally.installed ==> m.tally.installed || (a.Obtained? && a.name == Installation)
  {
    hide Allowed, Matched, DecodeStatus;
  }

  lemma AdvanceSafe(t: Terms, m: Monitor, a: Action)
    requires Advance(t, m, a).safe
    ensures m.safe && (a.Wrote? ==> Allowed(t, m, a.name, a.payload))
  {
    hide Allowed, Matched, DecodeStatus;
  }

  lemma {:induction false} SafePrefix(t: Terms, run: seq<Action>, i: nat)
    requires i < |run| && After(t, run).safe
    ensures After(t, run[..i]).safe && (run[i].Wrote? ==> Allowed(t, After(t, run[..i]), run[i].name, run[i].payload))
    decreases |run|
  {
    hide Advance, Allowed;
    var n := |run| - 1;
    AdvanceSafe(t, After(t, run[..n]), run[n]);
    if i < n {
      SafePrefix(t, run[..n], i);
      assert run[..n][..i] == run[..i];
    }
  }

  // ---------------------------------------------------------------- the safety of a run

  /**
   Before position `i`: a configuration reply, behind every change, then a status reply, which
   together read back as the settings ask, and then a confirmed stop.
   */
  ghost predicate ReadBackBefore(t: Terms, run: seq<Action>, i: int)
    requires i <= |run|
  {
    exists c: int, s: int, o: int | 0 <= c < s < o < i ::
      && IsReply(run, c, ReadConfiguration) && IsReply(run, s, StatusRequest) && IsReply(run, o, OnRequest)
      && Unchanged(run, c, i) && ReadsAsAsked(t, run[..i], run[c].response, run[s].response)
  }

  predicate ReadsAsAsked(t: Terms, run: seq<Action>, block: Response, status: Response) {
    var base, decoded := StartingBlock(t, run), DecodeStatus(status);
    && base.Some? && IsConfiguration(base.value) && decoded.Ok?
    && ReadsBack(t.settings, Plan(t.settings, base.value), block.data, decoded.value)
  }

  /** A matching account with a confirmed stop is backed by the trace. */
  lemma MatchedMeaning(t: Terms, run: seq<Action>)
    requires Matched(t, After(t, run)) && After(t, run).stopped
    ensures ReadBackBefore(t, run, |run|)
  {
    hide After, DecodeStatus, ReadsBack, Plan;
    var c := ConfigRead(t, run);
    var s := StatusRead(t, run);
    var o := StopRead(t, run);
    BaseRead(t, run);
    assert run[..|run|] == run;
    assert c < s by {
      assert c > s ==> !IsReply(run, c, ReadConfiguration);
    }
    assert s < o by {
      assert s > o ==> !IsReply(run, s, StatusRequest);
    }
    assert ReadsAsAsked(t, run, run[c].response, run[s].response);
  }

  lemma ReadBackEarlier(t: Terms, run: seq<Action>, i: int)
    requires 0 <= i <= |run| && ReadBackBefore(t, run[..i], i)
    ensures ReadBackBefore(t, run, i)
  {
    hide ReadsAsAsked, Changes;
    var early := run[..i];
    assert early[..i] == early;
    var c: int, s: int, o: int :| 0 <= c < s < o < i
      && IsReply(early, c, ReadConfiguration) && IsReply(early, s, StatusRequest) && IsReply(early, o, OnRequest)
      && Unchanged(early, c, i) && ReadsAsAsked(t, early[..i], early[c].response, early[s].response);
    assert IsReply(run, c, ReadConfiguration) && IsReply(run, s, StatusRequest) && IsReply(run, o, OnRequest);
    assert Unchanged(run, c, i) by {
      forall j | c < j < i
        ensures !(run[j].Wrote? && Changes(run[j].name))
      {
        assert early[j] == run[j];
      }
    }
  }

  /**
   Every safe run, against any scanner: each telegram is what the settings call for; variant and
   configuration are written only behind a confirmed installation mode; the stream is started only
   behind a readback of all changes, block and status, that is as the settings ask, and a confirmed
   stop behind that; and each of these writes happens at most once.
   */
  lemma SafeRunMeaning(t: Terms, run: seq<Action>)
    requires After(t, run).safe
    ensures forall i | 0 <= i < |run| && run[i].Wrote? ::
      Asks(t.settings, StartingBlock(t, run[..i]), run[i].name, run[i].payload)
    ensures forall i | IsWrite(run, i, ScanVariant) || IsWrite(run, i, WriteConfiguration) ::
      exists j | j < i :: IsReply(run, j, Installation)
    ensures forall i | IsWrite(run, i, Continuous) :: ReadBackBefore(t, run, i)
    ensures forall name | name in {Installation, BaudRate, ScanVariant, WriteConfiguration, Continuous} ::
      WritesOf(run, name) <= 1
  {
    hide After, Asks, Matched, ReadBackBefore;
    forall i | 0 <= i < |run| && run[i].Wrote?
      ensures Asks(t.settings, StartingBlock(t, run[..i]), run[i].name, run[i].payload)
    {
      SafePrefix(t, run, i);
      BaseRead(t, run[..i]);
    }
    forall i | IsWrite(run, i, ScanVariant) || IsWrite(run, i, WriteConfiguration)
      ensures exists j | j < i :: IsReply(run, j, Installation)
    {
      SafePrefix(t, run, i);
      var j := InstalledRead(t, run[..i]);
      assert IsReply(run, j, Installation);
    }
    forall i | IsWrite(run, i, Continuous)
      ensures ReadBackBefore(t, run, i)
    {
      SafePrefix(t, run, i);
      MatchedMeaning(t, run[..i]);
      ReadBackEarlier(t, run, i);
    }
    WritesBounded(t, run);
  }

  /** The counters are what the trace contains. */
  lemma {:induction false} TallyRead(t: Terms, run: seq<Action>)
    ensures var m := After(t, run).tally;
      && m.installs == WritesOf(run, Installation) && m.bauds == WritesOf(run, BaudRate)
      && m.variants == WritesOf(run, ScanVariant) && m.stores == WritesOf(run, WriteConfiguration)
      && m.starts == WritesOf(run, Continuous)
    decreases |run|
  {
    hide Advance;
    if run != [] {
      TallyRead(t, run[..|run| - 1]);
      AdvanceTally(t, After(t, run[..|run| - 1]), run[|run| - 1]);
    }
  }

  lemma AdvanceTally(t: Terms, m: Monitor, a: Action)
    ensures var was, n := m.tally, Advance(t, m, a).tally;
      && n.installs == was.installs + (if a.Wrote? && a.name == Installation then 1 else 0)
      && n.bauds == was.bauds + (if a.Wrote? && a.name == BaudRate then 1 else 0)
      && n.variants == was.variants + (if a.Wrote? && a.name == ScanVariant then 1 else 0)
      && n.stores == was.stores + (if a.Wrote? && a.name == WriteConfiguration then 1 else 0)
      && n.starts == was.starts + (if a.Wrote? && a.name == Continuous then 1 else 0)
  {
    hide Allowed, Matched, DecodeStatus;
  }

  lemma {:induction false} WritesBounded(t: Terms, run: seq<Action>)
    requires After(t, run).safe
    ensures forall name | name in {Installation, BaudRate, ScanVariant, WriteConfiguration, Continuous} ::
      WritesOf(run, name) <= 1
    decreases |run|
  {
    if run != [] {
      var n := |run| - 1;
      SafePrefix(t, run, n);
      WritesBounded(t, run[..n]);
      TallyRead(t, run[..n]);
      hide After, Asks, Matched;
    }
  }
}
