/** What a second `initialize` on the same scanner does. */
module InitializationTheorems {
  import opened Bytes
  import opened Framing
  import opened Commands
  import opened Simulator
  import opened StateMachine
  import opened Trace
  import opened Initialization

  /** A new device is ready for its first run. */
  method NewDevice(settings: Settings, canSetBaud: bool, link: Link) returns (d: Device)
    requires ValidSettings(settings)
    ensures fresh(d) && fresh(d.framer) && Ready(d)
    ensures d.settings == settings && d.link == link && !d.open && d.state == Disconnected && d.run == []
  {
    d := new Device(settings, canSetBaud, link);
  }

  lemma GoalIsFaultFree(settings: Settings, sc: Scanner, mode: Byte)
    requires FaultFree(sc) && ValidSettings(settings)
    ensures FaultFree(Goal(settings, sc, mode))
  {
    UpdatedMeaning(sc.config, settings.millimetres, settings.indices);
    hide Updated;
  }

  lemma GoalNeedsNothing(settings: Settings, sc: Scanner, mode: Byte)
    requires IsConfiguration(sc.config)
    ensures IsConfiguration(Goal(settings, sc, mode).config)
    ensures Writes(settings, Goal(settings, sc, mode)) == NOTHING.(mutated := true)
    ensures Goal(settings, Goal(settings, sc, mode), mode) == Goal(settings, sc, mode)
  {
    UpdatedMeaning(sc.config, settings.millimetres, settings.indices);
    hide Updated;
  }

  lemma GoalIsFound(settings: Settings, sc: Scanner, baud: nat, canSetBaud: bool, mode: Byte)
    requires FaultFree(sc) && ValidSettings(settings) && sc.baud in RatesToTry(settings, baud, canSetBaud)
    ensures var goal := Goal(settings, sc, mode); goal.baud in RatesToTry(settings, goal.baud, canSetBaud)
  {
    hide Updated;
  }

  /**
   `initialize`, `close` and `initialize` again with the same settings on a fault-free scanner: the
   whole trace is these three parts, the close confirms its stop, and the second run finds the
   scanner as it should be, starts the stream and sends no installation, baud, variant or
   configuration command.
   */
  method InitializeTwice(d: Device, ghost sc: Scanner)
    returns (ghost first: seq<Action>, ghost closing: seq<Action>, ghost second: seq<Action>)
    requires Ready(d) && WriteAllowed(d.settings) && d.settings.password == SICK_LMS
    requires Reachable(d, sc)
    modifies d, d.framer
    ensures d.run == old(d.run) + first + closing + second && Grounded(d.run, d.arrived)
    ensures After(old(Begins(d)), first).tally == Writes(d.settings, sc).(starts := 1)
    ensures IsCleanup(closing, true) && |closing| == 4
    ensures forall name | name in {Installation, BaudRate, ScanVariant, WriteConfiguration} :: WritesOf(second, name) == 0
    ensures WritesOf(second, Continuous) == 1
    ensures d.state == Streaming && d.link.scanner == Some(Goal(d.settings, sc, 0x24))
  {
    hide Quiet, WillBring, ValidSettings, WriteAllowed, FaultFree, Goal, After, RatesToTry, Grounded, Matched;
    GoalIsFaultFree(d.settings, sc, 0x24);
    GoalIsFaultFree(d.settings, sc, 0x25);
    StaysFaultFree(sc, 0, 0, 0, 0, []);
    GoalNeedsNothing(d.settings, sc, 0x25);
    GoalIsFound(d.settings, sc, d.link.baud, d.canSetBaud, 0x25);
    ModesOfGoal(d.settings, sc);
    ghost var cleanup;
    var error;
    ghost var before := d.run;
    error, first, cleanup := Initialize(d, true, sc);
    AppendNothing(before + first);
    closing := CloseUnlocked(d, Goal(d.settings, sc, 0x24));
    ghost var again := Begins(d);
    error, second, cleanup := Initialize(d, true, Goal(d.settings, sc, 0x25));
    AppendNothing(before + first + closing + second);
    TallyRead(again, second);
  }

  lemma ModesOfGoal(settings: Settings, sc: Scanner)
    requires IsConfiguration(sc.config)
    ensures Goal(settings, sc, 0x24).(mode := 0x25) == Goal(settings, sc, 0x25)
    ensures IsConfiguration(Goal(settings, sc, 0x25).config)
    ensures Goal(settings, Goal(settings, sc, 0x25), 0x24) == Goal(settings, sc, 0x24)
    ensures Goal(settings, sc, 0x24).baud == Goal(settings, sc, 0x25).baud == FinalBaud(settings, sc.baud)
  {
    UpdatedMeaning(sc.config, settings.millimetres, settings.indices);
    hide Updated;
  }
}
