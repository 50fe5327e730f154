/**
 The cleaning sequencer of the motors: the scenario of a cleaning, its exits, and the recovery after a pause.
 */
module CleaningSequencer {
  import opened CleaningAccounts
  import opened CleaningEnvironment
  import opened CleaningGuard
  import opened CleaningLog
  import opened CleaningPlan
  import opened Common

  /** A drive of the main cover: where it set out, what it comes to, and what is told of it on the way. */
  datatype Drive = Drive(direction: Direction, target: nat, start: Account, whole: seq<Step>, group: seq<Step>,
                         left: seq<Instant>, n: nat, guard: Guard, flags: Flags)

  class Sequencer {
    var script: seq<Instant>
    var log: seq<Step>
    var emergencyStop: bool
    var cleanPause: bool
    var recoveryRequested: bool
    var cleanRunning: bool
    var spinAlwaysOn: bool

    /** The account of the log so far, and those of all its beginnings. */
    ghost var account: Account
    ghost var trail: seq<Account>

    /** How long the log was, and its account, when the scenario was left. */
    ghost var leftAt: nat
    ghost var leaving: Account

    /** Whether, where and with which account the recovery first took the scoop in. */
    ghost var took: bool
    ghost var tookAt: nat
    ghost var taking: Account

    /** What has gone out under the flags, by the log so far. */
    ghost var guard: Guard

    ghost predicate Valid()
      reads this`log, this`account, this`trail, this`leftAt, this`leaving, this`took, this`tookAt, this`taking,
            this`guard, this`emergencyStop, this`cleanPause, this`recoveryRequested
    {
      && Kept(log, account, trail, guard, Standing())
      && Marked(log, trail, leftAt, leaving, took, tookAt, taking)
    }

    /** A run begins with the flags as they stand. */
    constructor (script: seq<Instant>, flags: Flags)
      ensures Valid() && this.script == script && Standing() == flags && log == [Flagged(flags)]
    {
      this.script := script;
      log, account, trail, leftAt, leaving := [Flagged(flags)], Blank, [Blank, Blank], 0, Blank;
      took, tookAt, taking, guard := false, 0, Blank, Guard(flags, false, [], [], [], false, false);
      emergencyStop, cleanPause, recoveryRequested := flags.stop, flags.paused, flags.asked;
      cleanRunning, spinAlwaysOn := false, false;
      new;
      FirstGuard(flags);
      FirstAccount(flags);
    }

    function Standing(): Flags
      reads this`emergencyStop, this`cleanPause, this`recoveryRequested
    {
      Flags(emergencyStop, cleanPause, recoveryRequested)
    }

    /** An emergency stop that no command is going to clear. */
    ghost predicate BoundToStop()
      reads this`emergencyStop, this`script
    {
      emergencyStop && Lasting(script)
    }

    /** No stop stands, and none is going to at any look. */
    ghost predicate Unstopped()
      reads this`emergencyStop, this`cleanPause, this`recoveryRequested, this`script
    {
      !emergencyStop && NeverStopped(Standing(), script)
    }

    predicate StopRequested()
      reads this`emergencyStop, this`recoveryRequested
    {
      emergencyStop || recoveryRequested
    }

    /** No button has been pressed that still counts. */
    predicate Untroubled()
      reads this`emergencyStop, this`cleanPause, this`recoveryRequested
    {
      !emergencyStop && !cleanPause && !recoveryRequested
    }

    /** Paused and resumed: the scenario is about to be left for the recovery. */
    predicate Leaving()
      reads this`emergencyStop, this`cleanPause, this`recoveryRequested
    {
      !emergencyStop && !cleanPause && recoveryRequested
    }

    /** What the guard knows of the flags. */
    lemma Flagging()
      requires Valid()
      ensures guard.flags == Standing() && (guard.blocked ==> ObstacleAhead(account.sum) && !guard.left)
      ensures !emergencyStop ==> guard.underStop == []
      ensures !recoveryRequested ==> guard.underRequest == []
      ensures !cleanPause ==> guard.underPause == []
    {
    }

    /** One more step of the log. */
    method Note(step: Step)
      requires Valid() && Admits(guard, step) && !step.TofCheck? && !step.Flagged? && !step.Left?
      modifies this`log, this`account, this`trail, this`guard
      ensures Valid() && log == old(log) + [step] && account == Tally(old(account), step)
      ensures guard == GuardNext(old(guard), step) && trail == old(trail) + [account]
    {
      hide Kept, Marked, Tally, GuardNext, Admits;
      KeptNext(log, account, trail, guard, Standing(), step);
      MarkedNext(log, trail, leftAt, leaving, took, tookAt, taking, step, Tally(account, step));
      log := log + [step];
      account := Tally(account, step);
      trail := trail + [account];
      guard := GuardNext(guard, step);
    }

    /** One that moves nothing. */
    method NoteStill(step: Step)
      requires Valid() && !IsMotion(step) && !step.TofCheck? && !step.Flagged? && !step.Left?
      modifies this`log, this`account, this`trail, this`guard
      ensures Valid() && log == old(log) + [step] && account == Tally(old(account), step)
      ensures Faded(old(guard), guard) && (Idles(step) ==> guard.blocked == old(guard).blocked)
      ensures SameUnder(old(guard), guard)
    {
      hide Kept, Marked;
      KeptListed(log, account, trail, guard, Standing());
      hide Valid, Tally, Listed, Admits, Faded, GuardNext;
      StillAdmitted(guard, step);
      StillSame(guard, step);
      Note(step);
    }

    /** The flags as the sequencer or another task sets them. */
    method SetFlags(flags: Flags)
      requires Valid()
      modifies this`log, this`account, this`trail, this`guard,
               this`emergencyStop, this`cleanPause, this`recoveryRequested
      ensures Valid() && log == old(log) + [Flagged(flags)] && account == old(account) && Standing() == flags
      ensures Faded(old(guard), guard) && guard.blocked == old(guard).blocked
    {
      hide Kept, Marked, Tally, GuardNext, Admits, Faded, Listed;
      KeptListed(log, account, trail, guard, Standing());
      StillAdmitted(guard, Flagged(flags));
      FlaggedKeeps(account, flags);
      KeptNext(log, account, trail, guard, Standing(), Flagged(flags));
      MarkedNext(log, trail, leftAt, leaving, took, tookAt, taking, Flagged(flags), account);
      log := log + [Flagged(flags)];
      trail := trail + [account];
      guard := GuardNext(guard, Flagged(flags));
      emergencyStop, cleanPause, recoveryRequested := flags.stop, flags.paused, flags.asked;
    }

    /** The exit puts the pause and the request back. */
    method MarkLeft()
      requires Valid()
      modifies this`log, this`account, this`trail, this`guard,
               this`emergencyStop, this`cleanPause, this`recoveryRequested
      ensures Valid() && account == old(account) && guard.over == old(guard).over && guard.left && Clear(guard)
      ensures Standing() == old(Standing()).(paused := false, asked := false)
    {
      hide Kept, Marked, Tally, GuardNext, Admits, Listed, Clear;
      KeptListed(log, account, trail, guard, Standing());
      StillAdmitted(guard, Left);
      LeftClears(guard);
      LeftKeeps(account);
      KeptNext(log, account, trail, guard, Standing(), Left);
      MarkedNext(log, trail, leftAt, leaving, took, tookAt, taking, Left, account);
      log := log + [Left];
      trail := trail + [account];
      guard := GuardNext(guard, Left);
      cleanPause, recoveryRequested := false, false;
    }

    /** A reading of the photo sensors. */
    method NoteReading(word: Word)
      requires Valid()
      modifies this`log, this`account, this`trail, this`guard
      ensures Valid() && log == old(log) + [Saw(word)]
      ensures account == old(account).(sum := Seen(old(account).sum, word))
      ensures Faded(old(guard), guard) && SameUnder(old(guard), guard)
    {
      hide Valid;
      SeenIs(account.sum, word);
      NoteStill(Saw(word));
    }

    method NoteMotor(motor: Motor, running: bool, elapsedMs: int)
      requires Valid()
      modifies this`log, this`account, this`trail, this`guard
      ensures Valid() && log == old(log) + [SawMotor(motor, running, elapsedMs)]
      ensures Calm(old(account), account) && NoNaps(old(account), account)
      ensures !running && elapsedMs > 300 ==> forall target :: Over(motor, target, account.sum)
      ensures Faded(old(guard), guard)
    {
      hide Valid;
      NoteStill(SawMotor(motor, running, elapsedMs));
    }

    /** A delay of 100 ms. */
    method Sleep(paused: bool)
      requires Valid()
      modifies this`log, this`account, this`trail, this`guard
      ensures Valid() && log == old(log) + [Slept(paused)]
      ensures account == Account(
                old(account).sum.(naps := old(account).sum.naps + (if paused then 0 else 1),
                                  pausedNaps := old(account).sum.pausedNaps + if paused then 1 else 0),
                old(account).ok, old(account).acts + ActOf(Slept(paused)))
      ensures Faded(old(guard), guard) && (paused ==> guard.blocked == old(guard).blocked)
    {
      hide Valid;
      NoteStill(Slept(paused));
    }

    method NoteDistance(distance: int)
      requires Valid() && !guard.left
      modifies this`log, this`account, this`trail, this`guard
      ensures Valid() && log == old(log) + [TofCheck(distance)]
      ensures account == AfterCheck(old(account), distance)
      ensures Faded(old(guard), guard) && guard.blocked == Obstacle(distance)
    {
      hide Kept, Marked, Tally, GuardNext, Admits, Listed, Faded, AfterCheck;
      KeptListed(log, account, trail, guard, Standing());
      StillAdmitted(guard, TofCheck(distance));
      CheckBlocks(guard, distance);
      CheckIs(account, distance);
      KeptNext(log, account, trail, guard, Standing(), TofCheck(distance));
      MarkedNext(log, trail, leftAt, leaving, took, tookAt, taking, TofCheck(distance), AfterCheck(account, distance));
      log := log + [TofCheck(distance)];
      account := AfterCheck(account, distance);
      trail := trail + [account];
      guard := GuardNext(guard, TofCheck(distance));
    }

    /** A motion, sent by the sequencer. */
    method Send(motor: Motor, direction: Direction, angle: nat, speed: nat, timeout: nat)
      requires Valid() && direction != Stop && Admits(guard, Command(motor, direction, angle, speed, timeout))
      modifies this`log, this`account, this`trail, this`guard
      ensures Valid() && log == old(log) + [Command(motor, direction, angle, speed, timeout)]
      ensures account == Tally(old(account), Command(motor, direction, angle, speed, timeout))
      ensures guard == GuardNext(old(guard), Command(motor, direction, angle, speed, timeout))
    {
      hide Valid, Tally, Admits, GuardNext;
      Note(Command(motor, direction, angle, speed, timeout));
    }

    method SendStop(motor: Motor)
      requires Valid()
      modifies this`log, this`account, this`trail, this`guard
      ensures Valid() && log == old(log) + [Command(motor, Stop, 0, 0, 0)]
      ensures account == WithStops(old(account), SetStop(old(account).sum.stops, motor, true))
      ensures Faded(old(guard), guard) && guard.blocked == old(guard).blocked
      ensures SameUnder(old(guard), guard)
    {
      hide Valid, Tally, WithStops;
      StopIs(account, motor);
      NoteStill(Command(motor, Stop, 0, 0, 0));
    }

    /** STOP to the five motors, in the order of set_emergency_stop. */
    method StopForEmergency()
      requires Valid()
      modifies this`log, this`account, this`trail, this`guard
      ensures Valid() && |old(log)| <= |log| && AllStopped(account.sum) && Halted(old(account), account)
      ensures Faded(old(guard), guard) && guard.blocked == old(guard).blocked
    {
      hide Valid;
      SendStop(Plate);
      SendStop(ScoopInOut);
      SendStop(MainCover);
      SendStop(WasteCover);
      SendStop(ScoopSpin);
    }

    /** STOP to the five motors, in the order of a pause and of the end of the recovery. */
    method StopForPause()
      requires Valid()
      modifies this`log, this`account, this`trail, this`guard
      ensures Valid() && |old(log)| <= |log| && AllStopped(account.sum) && Halted(old(account), account)
      ensures Faded(old(guard), guard) && guard.blocked == old(guard).blocked
    {
      hide Valid;
      SendStop(Plate);
      SendStop(ScoopSpin);
      SendStop(ScoopInOut);
      SendStop(WasteCover);
      SendStop(MainCover);
    }

    /** STOP to the five motors, in the order of the exits. */
    method StopForExit()
      requires Valid()
      modifies this`log, this`account, this`trail, this`guard
      ensures Valid() && |old(log)| <= |log| && AllStopped(account.sum) && Halted(old(account), account)
      ensures Faded(old(guard), guard) && guard.blocked == old(guard).blocked
    {
      hide Valid;
      SendStop(Plate);
      SendStop(MainCover);
      SendStop(ScoopInOut);
      SendStop(WasteCover);
      SendStop(ScoopSpin);
    }

    /** set_emergency_stop, as run by another task. */
    method SetEmergencyStop()
      requires Valid()
      modifies this`log, this`account, this`trail, this`guard,
               this`emergencyStop, this`cleanPause, this`recoveryRequested
      ensures Valid() && |old(log)| <= |log| && Standing() == old(Standing()).(stop := true)
      ensures AllStopped(account.sum) && Halted(old(account), account)
      ensures Faded(old(guard), guard) && guard.blocked == old(guard).blocked
    {
      hide Valid;
      SetFlags(Standing().(stop := true));
      StopForEmergency();
    }

    /** toggle_clean_pause, as run by another task: the second press asks for the recovery instead of going on. */
    method ToggleCleanPause()
      requires Valid()
      modifies this`log, this`account, this`trail, this`guard,
               this`emergencyStop, this`cleanPause, this`recoveryRequested
      ensures Valid() && |old(log)| <= |log| && cleanPause == !old(cleanPause) && emergencyStop == old(emergencyStop)
      ensures recoveryRequested == (old(recoveryRequested) || old(cleanPause))
      ensures !old(cleanPause) ==> AllStopped(account.sum)
      ensures Halted(old(account), account)
      ensures Faded(old(guard), guard) && guard.blocked == old(guard).blocked
    {
      hide Valid;
      if !cleanPause {
        SetFlags(Standing().(paused := true));
        StopForPause();
      } else {
        SetFlags(Standing().(paused := false, asked := true));
        NotHalted(account);
      }
    }

    /** A press as it reaches another task. Every command but the emergency stop clears it first. */
    method Press(p: Press)
      requires Valid()
      modifies this`log, this`account, this`trail, this`guard,
               this`emergencyStop, this`cleanPause, this`recoveryRequested
      ensures Valid() && |old(log)| <= |log| && Halted(old(account), account)
      ensures Standing() == Touched(old(Standing()), p)
      ensures Faded(old(guard), guard) && guard.blocked == old(guard).blocked
    {
      hide Valid, Halted;
      match p {
        case EmergencyStop => SetEmergencyStop();
        case ClearStop =>
          SetFlags(Standing().(stop := false));
          NotHalted(account);
        case PauseButton => ToggleCleanPause();
      }
    }

    /** The sequencer looks up: the other tasks have had their turn. */
    method Poll() returns (o: Outcome, now: Instant)
      requires Valid()
      modifies this`script, this`log, this`account, this`trail, this`guard,
               this`emergencyStop, this`cleanPause, this`recoveryRequested
      ensures Valid() && |old(log)| <= |log| && Halted(old(account), account)
      ensures o != Abort && (o == Cut <==> old(script) == []) && (o == Cut ==> script == [])
      ensures o == Done ==> now == old(script)[0] && script == old(script)[1..]
      ensures Standing() == if o == Done then Pressed(old(Standing()), now.presses) else old(Standing())
      ensures old(cleanPause) && !cleanPause ==> recoveryRequested
      ensures Faded(old(guard), guard) && guard.blocked == old(guard).blocked
      ensures old(Unstopped()) ==> Unstopped()
      ensures o == Cut || now.presses == [] ==> guard == old(guard) && Standing() == old(Standing())
      ensures (old(recoveryRequested) ==> recoveryRequested) && (old(BoundToStop()) ==> BoundToStop())
    {
      hide Valid, Halted, Lasting;
      NotHalted(account);
      if script == [] {
        now := *;
        return Cut, now;
      }
      LastingNext(script);
      now := script[0];
      script := script[1..];
      PressesKeep(Standing(), now.presses);
      var i := 0;
      while i < |now.presses|
        invariant Valid() && |old(log)| <= |log| && Halted(old(account), account) && i <= |now.presses|
        invariant Pressed(Standing(), now.presses[i..]) == Pressed(old(Standing()), now.presses)
        invariant script == old(script)[1..]
        invariant Faded(old(guard), guard) && guard.blocked == old(guard).blocked && (i == 0 ==> guard == old(guard))
      {
        ghost var before := account;
        Press(now.presses[i]);
        HaltedTwice(old(account), before, account);
        assert now.presses[i..][1..] == now.presses[i + 1..];
        i := i + 1;
      }
      o := Done;
    }

    /** A delay between two commands. At the end of the script nothing is pressed any more. */
    method Pass()
      requires Valid()
      modifies this`script, this`log, this`account, this`trail, this`guard,
               this`emergencyStop, this`cleanPause, this`recoveryRequested
      ensures Valid() && |old(log)| <= |log| && Halted(old(account), account)
      ensures Rest(script, old(script)) && |script| <= |old(script)|
      ensures GoneBy(old(Standing()), old(script), 1, script, Standing())
      ensures old(Untroubled()) && Swift(old(script), 1) ==> Untroubled() && Used(old(script), script, 1)
      ensures Faded(old(guard), guard)
      ensures (old(recoveryRequested) ==> recoveryRequested) && (old(BoundToStop()) ==> BoundToStop())
    {
      hide Valid, Halted, Rest, Used, Pressed, Swift, GoneBy;
      SwiftStart(script, 1);
      UsedOne(script);
      OneGone(Standing(), script);
      RestNext(script);
      var o, now := Poll();
    }

    /** Reads the photo sensors. */
    method Look() returns (o: Outcome, w: Word)
      requires Valid()
      modifies this`script, this`log, this`account, this`trail, this`guard,
               this`emergencyStop, this`cleanPause, this`recoveryRequested
      ensures Valid() && |old(log)| <= |log|
      ensures o != Abort && (o == Cut <==> old(script) == []) && (o == Cut ==> script == [])
      ensures o == Cut ==> Halted(old(account), account)
      ensures o == Done ==> Read(old(account), account, w) && |old(log)| < |log| && log[|log| - 1] == Saw(w)
      ensures o == Done ==> w == old(script)[0].word && Used(old(script), script, 1)
      ensures Rest(script, old(script)) && |script| == |old(script)| - if o == Done then 1 else 0
      ensures old(Untroubled()) && Swift(old(script), 1) ==> o == Done && w == EASY && Untroubled()
      ensures Faded(old(guard), guard)
      ensures old(Unstopped()) ==> Unstopped()
      ensures old(script) == [] || old(script)[0].presses == [] ==>
                SameUnder(old(guard), guard) && Standing() == old(Standing())
      ensures o == Done ==> Standing() == Pressed(old(Standing()), old(script)[0].presses)
      ensures (old(recoveryRequested) ==> recoveryRequested) && (old(BoundToStop()) ==> BoundToStop())
    {
      hide Valid, Seen, Rest, Used, Pressed, Faded;
      ghost var whole := script;
      UsedOne(whole);
      RestNext(whole);
      var now;
      o, now := Poll();
      w := now.word;
      if o == Done {
        HaltedThenRead(old(account), account, w);
        ghost var polled := guard;
        NoteReading(w);
        FadedTwice(old(guard), polled, guard);
      }
    }

    /** 100 ms of a pause. */
    method PauseTurn() returns (o: Outcome, now: Instant)
      requires Valid()
      modifies this`script, this`log, this`account, this`trail, this`guard,
               this`emergencyStop, this`cleanPause, this`recoveryRequested
      ensures Valid() && |old(log)| <= |log| && Paused(old(account), account)
      ensures account.sum.pausedNaps == old(account).sum.pausedNaps + 1
      ensures o != Abort && (o == Cut <==> old(script) == []) && (o == Cut ==> script == [])
      ensures o == Done ==> now == old(script)[0] && script == old(script)[1..]
      ensures Standing() == if o == Done then Pressed(old(Standing()), now.presses) else old(Standing())
      ensures old(cleanPause) && !cleanPause ==> recoveryRequested
      ensures Faded(old(guard), guard) && guard.blocked == old(guard).blocked
      ensures (old(recoveryRequested) ==> recoveryRequested) && (old(BoundToStop()) ==> BoundToStop())
    {
      hide Valid, Pressed;
      Sleep(true);
      o, now := Poll();
    }

    /**
     Sits out a pause. The press that ends it also asks for the recovery, which the callers see afterwards. A pause
     that is not to be left already comes to a good end if and only if the script resumes it.
     */
    method SitOutPause() returns (o: Outcome)
      requires Valid()
      modifies this`script, this`log, this`account, this`trail, this`guard,
               this`emergencyStop, this`cleanPause, this`recoveryRequested
      ensures Valid() && |old(log)| <= |log| && Paused(old(account), account)
      ensures |script| <= |old(script)| && (o == Cut ==> script == []) && Rest(script, old(script))
      ensures o == Done ==> !cleanPause && (old(cleanPause) ==> recoveryRequested)
      ensures o == Abort ==> StopRequested()
      ensures !old(cleanPause) ==> o == Done && unchanged(this)
      ensures old(cleanPause) && old(StopRequested()) ==> o == Abort && unchanged(this)
      ensures old(cleanPause) && !old(StopRequested()) ==> (o == Done <==> Resumes(old(script)))
      ensures old(cleanPause) && !old(StopRequested()) ==>
                old(script) != [] && old(script)[0].presses == [PauseButton] ==>
                  o == Done && Leaving() && script == old(script)[1..]
      ensures account.sum.pausedNaps - old(account).sum.pausedNaps >= |old(script)| - |script|
      ensures old(cleanPause) && !old(StopRequested()) && o != Cut ==> |script| < |old(script)|
      ensures Faded(old(guard), guard) && guard.blocked == old(guard).blocked
      ensures (old(recoveryRequested) ==> recoveryRequested) && (old(BoundToStop()) ==> BoundToStop())
    {
      hide Valid, Paused, Rest, Pressed, BoundToStop;
      ghost var whole := script;
      RestNext(whole);
      PausedStart(account);
      OnePress(Flags(false, true, false), PauseButton);
      while cleanPause
        invariant Valid() && |old(log)| <= |log| && Paused(old(account), account)
        invariant |script| <= |whole| && Rest(script, whole)
        invariant (script == whole ==> unchanged(this)) && (script == whole || |script| < |whole|)
        invariant script != whole ==> old(cleanPause) && !old(StopRequested())
        invariant cleanPause && !StopRequested() ==> Resumes(script) == Resumes(whole)
        invariant cleanPause && script != whole && StopRequested() ==> !Resumes(whole)
        invariant cleanPause && script != whole ==> whole[0].presses != [PauseButton]
        invariant !cleanPause && script != whole ==> Resumes(whole) && recoveryRequested
        invariant script != whole && whole[0].presses == [PauseButton] ==> Leaving() && script == whole[1..]
        invariant account.sum.pausedNaps - old(account).sum.pausedNaps >= |whole| - |script|
        invariant Faded(old(guard), guard) && guard.blocked == old(guard).blocked
        invariant (old(recoveryRequested) ==> recoveryRequested) && (old(BoundToStop()) ==> BoundToStop())
        decreases |script|
      {
        if StopRequested() {
          return Abort;
        }
        ghost var before, paused := script, account;
        var now;
        o, now := PauseTurn();
        PausedTwice(old(account), paused, account);
        if o == Cut {
          return Cut;
        }
        RestNext(before);
        RestOfRest(script, before, whole);
      }
      return Done;
    }


    // ------------------------------------------------------------------------- waits

    /**
     CHECK_ESTOP. It does not look at the pause: pressed just before, the pause button lets the scenario go on with
     the pause standing.
     */
    method CheckStop() returns (o: Outcome)
      requires Valid()
      modifies this`script, this`log, this`account, this`trail, this`guard,
               this`emergencyStop, this`cleanPause, this`recoveryRequested
      ensures Valid() && |old(log)| <= |log| && Halted(old(account), account)
      ensures (o == Cut <==> old(script) == []) && (o == Cut ==> script == [])
      ensures o != Cut ==> Used(old(script), script, 1) && |script| == |old(script)| - 1
      ensures Rest(script, old(script)) && (o == Done ==> !StopRequested())
      ensures o != Cut ==> Standing() == Pressed(old(Standing()), old(script)[0].presses)
      ensures o == Done ==> Unasked(guard)
      ensures o == Done <==> old(script) != [] && !Requested(Pressed(old(Standing()), old(script)[0].presses))
      ensures Faded(old(guard), guard)
      ensures old(Untroubled()) && Swift(old(script), 1) ==> o == Done && Untroubled()
      ensures (old(recoveryRequested) ==> recoveryRequested) && (old(BoundToStop()) ==> BoundToStop())
    {
      hide Valid, Halted, Faded, Swift, Used, Rest, Pressed;
      SwiftStart(script, 1);
      UsedOne(script);
      RestNext(script);
      var now;
      o, now := Poll();
      Flagging();
      if o == Done && StopRequested() {
        o := Abort;
      }
    }

    /** What every wait does about a pause: it sits it out and then leaves the scenario. */
    method LeaveIfPaused() returns (o: Outcome)
      requires Valid() && !StopRequested()
      modifies this`script, this`log, this`account, this`trail, this`guard,
               this`emergencyStop, this`cleanPause, this`recoveryRequested
      ensures Valid() && |old(log)| <= |log| && Paused(old(account), account)
      ensures |script| <= |old(script)| && (o == Cut ==> script == [])
      ensures if old(cleanPause) then o != Done else o == Done && unchanged(this)
      ensures |old(script)| - |script| <= account.sum.pausedNaps - old(account).sum.pausedNaps
      ensures o == Abort ==> |script| < |old(script)|
      ensures old(cleanPause) && old(script) != [] && old(script)[0].presses == [PauseButton] ==>
                o == Abort && Leaving() && |script| == |old(script)| - 1
      ensures Rest(script, old(script))
      ensures Faded(old(guard), guard)
      ensures (old(recoveryRequested) ==> recoveryRequested) && (old(BoundToStop()) ==> BoundToStop())
    {
      hide Valid, Paused, Resumes, Rest;
      o := SitOutPause();
      if o == Done && StopRequested() {
        o := Abort;
      }
    }

    /** The limit decides, or, after the first 300 ms, whether the motor still runs. */
    method LookAtMotor(motor: Motor, target: Target, now: Instant, elapsedMs: int, ghost from: nat)
      returns (reached: bool)
      requires Valid() && from <= |log|
      modifies this`log, this`account, this`trail, this`guard
      ensures Valid() && |old(log)| <= |log|
      ensures Waited(old(account), account) && account.sum.pausedNaps == old(account).sum.pausedNaps
      ensures reached <==> AtTarget(motor, target, now.word) || (elapsedMs > 300 && !Runs(now, motor))
      ensures reached ==> ArrivedWithin(motor, target, log, from) && Over(motor, target, account.sum)
      ensures Faded(old(guard), guard)
    {
      hide Valid, Waited, Over, ArrivedWithin, Faded;
      ghost var start := account;
      NoteReading(now.word);
      SeenWaited(start, now.word);
      reached := AtTarget(motor, target, now.word);
      if reached {
        OverAtTarget(motor, target, start.sum, now.word);
      }
      ArrivedLast(motor, target, log, from);
      if elapsedMs > 300 {
        ghost var looked, seen := account, guard;
        var standing := LookStanding(motor, target, now, elapsedMs, from);
        FadedTwice(old(guard), seen, guard);
        if reached {
          OverStays(motor, target, looked, account);
        }
        WaitedTwice(start, looked, account);
        reached := reached || standing;
      }
    }

    method LookStanding(motor: Motor, target: Target, now: Instant, elapsedMs: int, ghost from: nat)
      returns (standing: bool)
      requires Valid() && from <= |log| && elapsedMs > 300
      modifies this`log, this`account, this`trail, this`guard
      ensures Valid() && |old(log)| < |log|
      ensures Waited(old(account), account) && account.sum.pausedNaps == old(account).sum.pausedNaps
      ensures standing <==> !Runs(now, motor)
      ensures standing || ArrivedWithin(motor, target, old(log), from) ==> ArrivedWithin(motor, target, log, from)
      ensures standing ==> Over(motor, target, account.sum)
      ensures Faded(old(guard), guard)
    {
      hide Valid, Calm, ArrivedWithin, Faded;
      standing := !Runs(now, motor);
      ArrivedNext(motor, target, log, SawMotor(motor, !standing, elapsedMs), from);
      NoteMotor(motor, !standing, elapsedMs);
    }

    /** Reads the sensors and the clock, and says whether to go on waiting. */
    method Inspect(motor: Motor, timeout: nat, target: Target, start: int, ghost w: Wait, ghost from: nat)
      returns (o: Outcome, again: bool)
      requires w == Wait(w.flags, motor, timeout, target, w.script) && BeforeLook(w, script, Standing(), 0)
      requires Valid() && from <= |log| && w.script != [] && start == w.script[0].clockUs
      modifies this`script, this`log, this`account, this`trail, this`guard,
               this`emergencyStop, this`cleanPause, this`recoveryRequested
      ensures Valid() && |old(log)| <= |log|
      ensures Waited(old(account), account) && account.sum.pausedNaps == old(account).sum.pausedNaps
      ensures Rest(script, old(script)) && |old(script)| - 1 <= |script| && (o == Cut ==> script == [])
      ensures o == Done && !again ==> ArrivedWithin(motor, target, log, from) && Over(motor, target, account.sum)
      ensures o == Done && again ==> |script| < |old(script)|
      ensures if o == Done && again then BeforeLook(w, script, Standing(), 1)
              else WaitTells(w, o, script, Standing())
      ensures o == Abort ==> |script| < |old(script)|
      ensures Faded(old(guard), guard)
      ensures (old(recoveryRequested) ==> recoveryRequested) && (old(BoundToStop()) ==> BoundToStop())
    {
      hide Valid, Waited, Halted, Over, ArrivedWithin, Rest, AtTarget, Pressed, Faded, BeforeLook, WaitTells;
      again := false;
      LookIsRest(w, script, Standing(), 0);
      RestNext(script);
      ghost var polled := account;
      var now;
      o, now := Poll();
      HaltedWaited(polled, account);
      if o == Done {
        RestFirst(old(script), w.script);
        var elapsedMs := ElapsedMs(start, now.clockUs);
        ghost var looked, polledGuard := account, guard;
        var reached := LookAtMotor(motor, target, now, elapsedMs, from);
        FadedTwice(old(guard), polledGuard, guard);
        WaitedTwice(polled, looked, account);
        if !reached {
          if elapsedMs >= timeout {
            o := Abort;
          } else {
            again := true;
          }
        }
      }
      TurnLooks(w, old(script), old(Standing()), o, again, script, Standing());
    }

    /** The flags, and a pause if there is one. */
    method PassFlags() returns (o: Outcome)
      requires Valid()
      modifies this`script, this`log, this`account, this`trail, this`guard,
               this`emergencyStop, this`cleanPause, this`recoveryRequested
      ensures Valid() && |old(log)| <= |log| && Waited(old(account), account) && Paused(old(account), account)
      ensures Rest(script, old(script)) && (o == Cut ==> script == [])
      ensures (o == Done ==> |script| == |old(script)| - 1) && (o == Abort ==> |script| < |old(script)|)
      ensures |old(script)| - |script| <= 1 + account.sum.pausedNaps - old(account).sum.pausedNaps
      ensures old(recoveryRequested) || old(BoundToStop()) ==> o != Done
      ensures o == Done ==> Clear(guard)
      ensures Faded(old(guard), guard)
      ensures old(Untroubled()) && BeginsPaused(old(script)) ==>
                o == Abort && Leaving() && |script| == |old(script)| - 2
      ensures Passes(old(Standing()), old(script), o, script, Standing())
      ensures (old(recoveryRequested) ==> recoveryRequested) && (old(BoundToStop()) ==> BoundToStop())
    {
      hide Valid, Waited, Halted, Paused, Rest, Pressed, Swift, Faded;
      ghost var first, whole := account, script;
      OnePress(Unpressed, PauseButton);
      UsedOne(whole);
      o := CheckStop();
      HaltedWaited(first, account);
      if o != Done {
        return o;
      }
      ghost var polled, left, checked := account, script, guard;
      o := LeaveIfPaused();
      FadedTwice(old(guard), checked, guard);
      Flagging();
      RestOfRest(script, left, whole);
      PausedWaited(polled, account);
      WaitedTwice(first, polled, account);
      PausedTwice(first, polled, account);
    }

    /** One turn of wait_motor_operation: the flags, the pause, then the sensors 20 ms later. */
    method WaitTurn(motor: Motor, timeout: nat, target: Target, start: int, ghost w: Wait, ghost from: nat)
      returns (o: Outcome, again: bool)
      requires w == Wait(w.flags, motor, timeout, target, w.script) && BeforeLook(w, script, Standing(), 1)
      requires Valid() && from <= |log| && w.script != [] && start == w.script[0].clockUs
      modifies this`script, this`log, this`account, this`trail, this`guard,
               this`emergencyStop, this`cleanPause, this`recoveryRequested
      ensures Valid() && |old(log)| <= |log| && Waited(old(account), account)
      ensures Rest(script, old(script)) && (o == Cut ==> script == [])
      ensures o == Done && !again ==> ArrivedWithin(motor, target, log, from) && Over(motor, target, account.sum)
      ensures if o == Done && again then BeforeLook(w, script, Standing(), 1)
              else WaitTells(w, o, script, Standing())
      ensures o != Cut ==> |script| < |old(script)|
      ensures old(recoveryRequested) || old(BoundToStop()) ==> o != Done
      ensures o == Done ==> Clear(guard)
      ensures Faded(old(guard), guard)
      ensures |old(script)| - |script| <= 2 + account.sum.pausedNaps - old(account).sum.pausedNaps
      ensures old(Untroubled()) && BeginsPaused(old(script)) ==>
                o == Abort && Leaving() && |script| == |old(script)| - 2 && Paused(old(account), account)
      ensures (old(recoveryRequested) ==> recoveryRequested) && (old(BoundToStop()) ==> BoundToStop())
    {
      hide Valid, Waited, Halted, Paused, Over, ArrivedWithin, Rest, IsEasy, IsQuiet;
      hide Pressed, Faded, Clear, BeforeLook, WaitTells, Passes;
      again := false;
      ghost var first, left := account, script;
      o := PassFlags();
      RestShorter(script, left);
      TurnPasses(w, left, old(Standing()), o, script, Standing());
      if o != Done {
        return o, again;
      }
      ghost var polled, passed, middle := account, guard, script;
      o, again := Inspect(motor, timeout, target, start, w, from);
      RestShorter(script, middle);
      RestOfRest(script, middle, left);
      WaitedTwice(first, polled, account);
      FadedTwice(old(guard), passed, guard);
      FadedTurns(passed, guard);
    }

    /** A wait underway, or one that has come to its end o. */
    ghost predicate Waiting(w: Wait, o: Outcome, again: bool, from: nat, first: Account, before: Guard, pressed: bool,
                            stopped: bool)
      reads this`script, this`log, this`account, this`guard,
            this`emergencyStop, this`cleanPause, this`recoveryRequested
    {
      && from <= |log| && Waited(first, account) && Faded(before, guard) && Rest(script, w.script)
      && (again ==> o == Done && |script| < |w.script|) && (o == Cut ==> script == [])
      && (if again then BeforeLook(w, script, Standing(), 1) else WaitTells(w, o, script, Standing()))
      && (o == Done && !again ==>
            ArrivedWithin(w.motor, w.target, log, from) && Over(w.motor, w.target, account.sum) && Clear(guard))
      && (stopped ==> (recoveryRequested || BoundToStop()) && (o == Done ==> again))
      && (Ticking(w.script) ==>
            |w.script| - |script| <=
              2 * w.timeout + if again then 0 else 2 + account.sum.pausedNaps - first.sum.pausedNaps)
      && (pressed ==>
            && PressedTwice(w.script) && Paused(first, account)
            && if again then Untroubled() && |script| == |w.script| - 1
               else o == Abort && Leaving() && |script| == |w.script| - 3)
    }

    method WaitOn(motor: Motor, timeout: nat, target: Target, start: int, ghost w: Wait, ghost from: nat,
                  ghost first: Account, ghost before: Guard, ghost pressed: bool, ghost stopped: bool)
      returns (o: Outcome, again: bool)
      requires w == Wait(w.flags, motor, timeout, target, w.script) && timeout > 0
      requires Valid() && Waiting(w, Done, true, from, first, before, pressed, stopped)
      requires start == w.script[0].clockUs
      modifies this`script, this`log, this`account, this`trail, this`guard,
               this`emergencyStop, this`cleanPause, this`recoveryRequested
      ensures Valid() && |old(log)| <= |log| && Waiting(w, o, again, from, first, before, pressed, stopped)
      ensures |script| < |old(script)| || (|script| == |old(script)| && !again)
      ensures (old(recoveryRequested) ==> recoveryRequested) && (old(BoundToStop()) ==> BoundToStop())
    {
      hide Valid, Waited, Halted, Paused, Over, ArrivedWithin, Ticking, Swift, Used, Rest, IsEasy, IsQuiet;
      hide BoundToStop, PressedTwice, Pressed, Faded, Clear, BeforeLook, WaitTells, LeavesAtOnce;
      ghost var turn, held, left := account, guard, script;
      PressFacts(w.script);
      if left != [] {
        RestFirst(left, w.script);
        RestSecond(left, w.script);
      }
      RestNext(left);
      o, again := WaitTurn(motor, timeout, target, start, w, from);
      again := o == Done && again;
      RestShorter(script, left);
      RestOfRest(script, left, w.script);
      WaitedTwice(first, turn, account);
      FadedTwice(before, held, guard);
      if pressed {
        PausedTwice(first, turn, account);
      }
      if again && Ticking(w.script) {
        TurnsWithin(w, script, Standing());
      }
    }

    /** What a wait that is over says. */
    lemma WaitOver(w: Wait, o: Outcome, from: nat, first: Account, before: Guard, pressed: bool, stopped: bool)
      requires Waiting(w, o, false, from, first, before, pressed, stopped)
      ensures Waited(first, account) && Faded(before, guard) && |script| <= |w.script| && (o == Cut ==> script == [])
      ensures WaitTells(w, o, script, Standing()) && (stopped ==> o != Done)
      ensures o == Done ==>
                ArrivedWithin(w.motor, w.target, log, from) && Over(w.motor, w.target, account.sum) && Clear(guard)
      ensures o == Abort && |script| == |w.script| - 2 <==> LeavesAtOnce(w.flags, w.script)
      ensures Ticking(w.script) ==>
                |w.script| - |script| <= 2 * w.timeout + 2 + account.sum.pausedNaps - first.sum.pausedNaps
      ensures w.flags == Unpressed && Swift(w.script, 3) ==> o == Done && Untroubled() && Used(w.script, script, 3)
      ensures pressed ==> o == Abort && Leaving() && Used(w.script, script, 3) && Paused(first, account)
    {
      hide Waited, Paused, Over, ArrivedWithin, Ticking, Swift, Used, Rest;
      hide BoundToStop, PressedTwice, Faded, Clear, WaitTells, LeavesAtOnce;
      RestShorter(script, w.script);
      LastThree(script, w.script);
      FirstLook(w, o, script, Standing());
      if w.flags == Unpressed && Swift(w.script, 3) {
        SwiftWait(w, o, script, Standing());
      }
    }

    /**
     wait_motor_operation. Its end and what it leaves are told by the script: it goes on until the first look at which
     the limit is read, or the motor stands after 300 ms, or the time is up, or a stop, a request or a pause stands.
     A good end means the limit was read or the motor was seen standing. Its first look at the flags ends it if and
     only if a stop or a request stands by then; so a recovery asked for beforehand never lets it end well, and a stop
     only if no command has cleared it. With a clock that ticks it comes to an end as soon as the pauses do.
     */
    method WaitMotor(motor: Motor, timeout: nat, target: Target) returns (o: Outcome)
      requires Valid() && timeout > 0
      modifies this`script, this`log, this`account, this`trail, this`guard,
               this`emergencyStop, this`cleanPause, this`recoveryRequested
      ensures Valid() && |old(log)| <= |log| && Waited(old(account), account)
      ensures |script| <= |old(script)| && (o == Cut ==> script == [])
      ensures o == Done ==> ArrivedWithin(motor, target, log, |old(log)|) && Over(motor, target, account.sum)
      ensures WaitTells(Wait(old(Standing()), motor, timeout, target, old(script)), o, script, Standing())
      ensures o == Abort && |script| == |old(script)| - 2 <==> LeavesAtOnce(old(Standing()), old(script))
      ensures old(recoveryRequested) || old(BoundToStop()) ==> o != Done
      ensures o == Done ==> Clear(guard)
      ensures Faded(old(guard), guard)
      ensures Ticking(old(script)) ==>
                |old(script)| - |script| <= 2 * timeout + 2 + account.sum.pausedNaps - old(account).sum.pausedNaps
      ensures old(Untroubled()) && Swift(old(script), 3) ==> o == Done && Untroubled() && Used(old(script), script, 3)
      ensures old(Untroubled()) && PressedTwice(old(script)) ==>
                o == Abort && Leaving() && Used(old(script), script, 3) && Paused(old(account), account)
      ensures (old(recoveryRequested) ==> recoveryRequested) && (old(BoundToStop()) ==> BoundToStop())
    {
      hide Valid, Waited, Halted, Paused, Over, ArrivedWithin, Ticking, Swift, Used, Rest, IsEasy, IsQuiet;
      hide BoundToStop, PressedTwice, Pressed, Faded, Clear, BeforeLook, WaitTells, LeavesAtOnce;
      ghost var w, from, first := Wait(Standing(), motor, timeout, target, script), |log|, account;
      ghost var pressed, stopped := Untroubled() && PressedTwice(script), recoveryRequested || BoundToStop();
      PressFacts(w.script);
      RestNext(script);
      var now;
      o, now := Poll();
      HaltedWaited(first, account);
      var start, again := now.clockUs, o == Done;
      if again {
        WaitStarts(w);
      } else {
        NeverSettled(w, script, Standing());
      }
      assert Waiting(w, o, again, from, first, old(guard), pressed, stopped);
      hide Waiting;
      while again
        invariant Valid() && Waiting(w, o, again, from, first, old(guard), pressed, stopped)
        invariant again ==> w.script != [] && start == w.script[0].clockUs
        invariant (old(recoveryRequested) ==> recoveryRequested) && (old(BoundToStop()) ==> BoundToStop())
        decreases |script|, again
      {
        o, again := WaitOn(motor, timeout, target, start, w, from, first, old(guard), pressed, stopped);
      }
      WaitOver(w, o, from, first, old(guard), pressed, stopped);
    }

    /** wait_duration. A good end means exactly so many unpaused delays of 100 ms. */
    method WaitDuration(ms: nat) returns (o: Outcome)
      requires Valid()
      modifies this`script, this`log, this`account, this`trail, this`guard,
               this`emergencyStop, this`cleanPause, this`recoveryRequested
      ensures Valid() && |old(log)| <= |log| && Idle(old(account), account)
      ensures |script| <= |old(script)| && (o == Cut ==> script == [])
      ensures o == Done ==> ms >= 100 && account.sum.naps == old(account).sum.naps + Hundreds(ms)
      ensures o == Done ==> account.acts == old(account).acts + Delays(Hundreds(ms))
      ensures Begins(account.acts, old(account).acts + Delays(Hundreds(ms)))
      ensures old(recoveryRequested) || old(BoundToStop()) ==> o != Done
      ensures o == Done ==> Clear(guard)
      ensures Faded(old(guard), guard)
      ensures |old(script)| - |script| <= Hundreds(ms) + account.sum.pausedNaps - old(account).sum.pausedNaps
      ensures ms >= 100 && old(Untroubled()) && Swift(old(script), Hundreds(ms)) ==>
                o == Done && Untroubled() && Used(old(script), script, Hundreds(ms))
      ensures ms < 100 ==> o == Abort && unchanged(this)
      ensures ms >= 100 ==> DelaysTell(old(Standing()), old(script), Hundreds(ms), o, script)
      ensures (old(recoveryRequested) ==> recoveryRequested) && (old(BoundToStop()) ==> BoundToStop())
    {
      hide Valid, Idle, Delays, Begins, Swift, Used, Hundreds, Faded, Clear, DelaysTell, DelayTells, DelaysSoFar;
      ghost var whole, start, stopped, untroubled := script, account, recoveryRequested || BoundToStop(), Untroubled();
      ghost var all := Hundreds(ms);
      UsedNone(whole);
      NotFaded(guard);
      DelaysStart(start);
      FewerDelays(start.acts, 0, all);
      if ms < 100 {
        return Abort;
      }
      var count := ms / 100;
      if ms % 100 != 0 {
        count := count + 1;
      }
      HundredsIs(ms, count);
      SwiftStart(whole, all);
      NoDelays(Standing(), whole);
      while count > 0
        invariant Valid() && |old(log)| <= |log| && Idle(start, account)
        invariant 0 <= count <= all && |script| <= |whole| && Used(whole, script, |whole| - |script|)
        invariant account.acts == start.acts + Delays(all - count) && Begins(account.acts, start.acts + Delays(all))
        invariant account.sum.naps == start.sum.naps + all - count
        invariant |whole| - |script| <= all - count + account.sum.pausedNaps - start.sum.pausedNaps
        invariant (old(recoveryRequested) ==> recoveryRequested) && (old(BoundToStop()) ==> BoundToStop())
        invariant Faded(old(guard), guard)
        invariant count < all ==> Clear(guard)
        invariant stopped ==> count == all
        invariant DelaysSoFar(old(Standing()), whole, all - count, script, Standing())
        invariant untroubled && Swift(whole, all) ==>
                    Untroubled() && Swift(script, count) && |script| == |whole| - (all - count)
        decreases count
      {
        ghost var turn, left, held, standing := account, script, guard, Standing();
        SwiftSplit(left, 1, count - 1);
        o := DelayTurn();
        FadedTwice(old(guard), held, guard);
        UsedTwice(whole, left, script);
        UsedLength(left, script, 1);
        if o != Done {
          IdleTwice(start, turn, account);
          DelaysEnd(old(Standing()), whole, all, all - count, left, standing, o, script, Standing());
          return;
        }
        OneMoreDelay(old(Standing()), whole, all - count, left, standing, script, Standing());
        IdleTwice(start, turn, account);
        DelaysNext(start.acts, all - count);
        count := count - 1;
        FewerDelays(start.acts, all - count, all);
      }
      DelaysOver(old(Standing()), whole, all, script, Standing());
      return Done;
    }

    /** The flags before a delay, and the pause, which is left without a look at the flags. */
    method DelayFlags() returns (o: Outcome)
      requires Valid()
      modifies this`script, this`log, this`account, this`trail, this`guard,
               this`emergencyStop, this`cleanPause, this`recoveryRequested
      ensures Valid() && |old(log)| <= |log| && Idle(old(account), account) && account.acts == old(account).acts
      ensures |script| <= |old(script)| && (o == Cut ==> script == [])
      ensures Used(old(script), script, |old(script)| - |script|) && account.sum.naps == old(account).sum.naps
      ensures |old(script)| - |script| <= 1 + account.sum.pausedNaps - old(account).sum.pausedNaps
      ensures old(recoveryRequested) || old(BoundToStop()) ==> o != Done
      ensures o == Done ==> Clear(guard)
      ensures Faded(old(guard), guard)
      ensures old(Untroubled()) && Swift(old(script), 1) ==> o == Done && Untroubled() && Used(old(script), script, 1)
      ensures DelayTells(old(Standing()), old(script), o, script, Standing())
      ensures (old(recoveryRequested) ==> recoveryRequested) && (old(BoundToStop()) ==> BoundToStop())
    {
      hide Unstopped, IsQuiet, IsEasy;
      hide Valid, Swift, Used, Rest, Resumes, Pressed, Faded, Halted, Paused, Idle, Lasting, Requested;
      ghost var start, whole := account, script;
      UsedOne(whole);
      SwiftStart(script, 1);
      o := CheckStop();
      UsedIsRest(script, whole);
      HaltedIdles(start, account);
      if o != Done {
        return;
      }
      ghost var halted := account;
      ghost var left, checked := script, guard;
      o := SitOutPause();
      PausedIdles(halted, account);
      IdleTwice(start, halted, account);
      FadedTwice(old(guard), checked, guard);
      FadedTurns(checked, guard);
      RestOfRest(script, left, whole);
      UsedIsRest(script, whole);
      if o == Done {
        Flagging();
      }
    }

    /** One turn of wait_duration: the flags, the pause, then 100 ms. */
    method DelayTurn() returns (o: Outcome)
      requires Valid()
      modifies this`script, this`log, this`account, this`trail, this`guard,
               this`emergencyStop, this`cleanPause, this`recoveryRequested
      ensures Valid() && |old(log)| <= |log| && Idle(old(account), account)
      ensures |script| <= |old(script)| && (o == Cut ==> script == [])
      ensures Used(old(script), script, |old(script)| - |script|)
      ensures o == Done ==> account.acts == old(account).acts + [Slept(false)]
      ensures o != Done ==> account.acts == old(account).acts
      ensures account.sum.naps == old(account).sum.naps + if o == Done then 1 else 0
      ensures |old(script)| - |script| <= 1 + account.sum.pausedNaps - old(account).sum.pausedNaps
      ensures old(recoveryRequested) || old(BoundToStop()) ==> o != Done
      ensures o == Done ==> Clear(guard)
      ensures Faded(old(guard), guard)
      ensures old(Untroubled()) && Swift(old(script), 1) ==> o == Done && Untroubled() && Used(old(script), script, 1)
      ensures DelayTells(old(Standing()), old(script), o, script, Standing())
      ensures (old(recoveryRequested) ==> recoveryRequested) && (old(BoundToStop()) ==> BoundToStop())
    {
      hide Valid, Swift, Used, Faded, Idle, Clear, DelayTells, BoundToStop;
      ghost var start := account;
      o := DelayFlags();
      if o == Done {
        ghost var waited, paused := guard, account;
        Sleep(false);
        SleptIdles(paused, account);
        IdleTwice(start, paused, account);
        FadedTwice(old(guard), waited, guard);
        FadedTurns(waited, guard);
      }
    }

    // ---------------------------------------------------- parts of the scenario

    method SendPlate(direction: Direction)
      requires Valid() && direction != Stop && Admits(guard, Command(Plate, direction, 0, 0, 0))
      modifies this`log, this`account, this`trail, this`guard
      ensures Valid() && log == old(log) + [Command(Plate, direction, 0, 0, 0)]
      ensures account == AfterOther(old(account), old(account).sum.stops.(plate := false),
                                    Command(Plate, direction, 0, 0, 0))
      ensures guard == GuardNext(old(guard), Command(Plate, direction, 0, 0, 0))
    {
      hide Valid, Admits, GuardNext, Tally, AfterOther, AfterSpin, AfterScoopOut, AfterScoopIn, AfterWaste;
      PlateIs(account, direction);
      Send(Plate, direction, 0, 0, 0);
    }

    method SendMainCover(direction: Direction, speed: nat)
      requires Valid() && direction != Stop && Admits(guard, Covering(direction, speed))
      modifies this`log, this`account, this`trail, this`guard
      ensures Valid() && log == old(log) + [Covering(direction, speed)]
      ensures account == AfterOther(old(account), old(account).sum.stops.(mainCover := false),
                                    Covering(direction, speed))
      ensures guard == GuardNext(old(guard), Covering(direction, speed))
    {
      hide Valid, Admits, GuardNext, Tally, AfterOther, AfterSpin, AfterScoopOut, AfterScoopIn, AfterWaste;
      CoverIs(account, direction, speed);
      Send(MainCover, direction, 0, speed, 0);
    }

    method SendSpin(angle: nat, direction: Direction, speed: nat, timeout: nat)
      requires Valid() && direction != Stop && Admits(guard, Spinning(angle, direction, speed, timeout))
      modifies this`log, this`account, this`trail, this`guard
      ensures Valid() && log == old(log) + [Spinning(angle, direction, speed, timeout)]
      ensures account == AfterSpin(old(account), Spinning(angle, direction, speed, timeout))
      ensures guard == GuardNext(old(guard), Spinning(angle, direction, speed, timeout))
    {
      hide Valid, Admits, GuardNext, Tally, AfterOther, AfterSpin, AfterScoopOut, AfterScoopIn, AfterWaste;
      SpinIs(account, angle, direction, speed, timeout);
      Send(ScoopSpin, direction, angle, speed, timeout);
    }

    method SendScoopOut(timeout: nat)
      requires Valid() && Admits(guard, Scooping(Forward, timeout))
      modifies this`log, this`account, this`trail, this`guard
      ensures Valid() && log == old(log) + [Scooping(Forward, timeout)]
      ensures account == AfterScoopOut(old(account), timeout)
      ensures guard == GuardNext(old(guard), Scooping(Forward, timeout))
    {
      hide Valid, Admits, GuardNext, Tally, AfterOther, AfterSpin, AfterScoopOut, AfterScoopIn, AfterWaste;
      ScoopOutIs(account, timeout);
      Send(ScoopInOut, Forward, 0, 0, timeout);
    }

    method SendScoopIn(timeout: nat)
      requires Valid() && Admits(guard, Scooping(Reverse, timeout))
      modifies this`log, this`account, this`trail, this`guard
      ensures Valid() && log == old(log) + [Scooping(Reverse, timeout)]
      ensures account == AfterScoopIn(old(account), timeout)
      ensures guard == GuardNext(old(guard), Scooping(Reverse, timeout))
    {
      hide Valid, Admits, GuardNext, Tally, AfterOther, AfterSpin, AfterScoopOut, AfterScoopIn, AfterWaste;
      ScoopInIs(account, timeout);
      Send(ScoopInOut, Reverse, 0, 0, timeout);
    }

    method SendWaste(direction: Direction, timeout: nat)
      requires Valid() && direction != Stop && Admits(guard, Wasting(direction, timeout))
      modifies this`log, this`account, this`trail, this`guard
      ensures Valid() && log == old(log) + [Wasting(direction, timeout)]
      ensures account == AfterWaste(old(account), direction, timeout)
      ensures guard == GuardNext(old(guard), Wasting(direction, timeout))
    {
      hide Valid, Admits, GuardNext, Tally, AfterOther, AfterSpin, AfterScoopOut, AfterScoopIn, AfterWaste;
      WasteIs(account, direction, timeout);
      Send(WasteCover, direction, 0, 0, timeout);
    }

    /** get_fresh_tof_distance: some time passes, and there is a distance or none. */
    method MeasureDistance() returns (o: Outcome, distance: int)
      requires Valid() && !guard.left
      modifies this`script, this`log, this`account, this`trail, this`guard,
               this`emergencyStop, this`cleanPause, this`recoveryRequested
      ensures Valid() && o != Abort && (o == Cut <==> old(script) == []) && (o == Cut ==> script == [])
      ensures o == Cut ==> Halted(old(account), account)
      ensures o == Done ==> Measured(old(account), account, distance)
      ensures o == Done ==> distance == Distance(old(script)[0]) && script == old(script)[1..]
      ensures o == Done ==> Standing() == Pressed(old(Standing()), old(script)[0].presses)
      ensures Faded(old(guard), guard) && (o == Done ==> guard.blocked == Obstacle(distance))
      ensures (old(recoveryRequested) ==> recoveryRequested) && (old(BoundToStop()) ==> BoundToStop())
    {
      hide Valid, Halted, Pressed, Distance, Faded;
      var now;
      o, now := Poll();
      distance := Distance(now);
      if o == Done {
        HaltedMeasured(old(account), account, distance);
        ghost var polled := guard;
        FadedTurns(old(guard), guard);
        NoteDistance(distance);
        FadedTwice(old(guard), polled, guard);
      }
    }

    /**
     CHECK_TOF_PAUSE. An obstacle stops all motors and pauses. The press that ends the pause asks for the
     recovery at the same time, but the loop ends on the pause flag first: the caller goes on, with the request set.
     It does so if and only if nothing stands that asks to leave, and the script resumes the pause. A check without
     an answer goes on as well.
     */
    method CheckTofPause() returns (o: Outcome, resumed: bool)
      requires Valid() && !guard.left
      modifies this`script, this`log, this`account, this`trail, this`guard,
               this`emergencyStop, this`cleanPause, this`recoveryRequested
      ensures Valid() && CalmButTof(old(account), account)
      ensures o == Done ==>
                && account.sum.tof.Some? && (resumed <==> Obstacle(account.sum.tof.value))
                && account.ok.answered == (old(account).ok.answered && account.sum.tof.value > 0)
      ensures o != Done ==> account.ok.answered == old(account).ok.answered
      ensures resumed ==> o == Done && recoveryRequested
      ensures old(script) != [] && Obstacle(Distance(old(script)[0])) ==> AllStopped(account.sum)
      ensures resumed <==>
                && old(script) != [] && Obstacle(Distance(old(script)[0]))
                && !Requested(Pressed(old(Standing()), old(script)[0].presses)) && Resumes(old(script)[1..])
      ensures old(script) != [] && !Obstacle(Distance(old(script)[0])) ==>
                o == Done && account.sum.tof == Some(Distance(old(script)[0]))
      ensures old(Untroubled()) && BlockedAfter(old(script), 0) ==> resumed
      ensures old(Untroubled()) && UnansweredAfter(old(script), 0) ==> o == Done && account.sum.tof.value <= 0
      ensures old(Untroubled()) && Swift(old(script), 1) ==>
                o == Done && !resumed && Untroubled() && Used(old(script), script, 1)
      ensures Faded(old(guard), guard) && (o == Done ==> guard.blocked == resumed)
      ensures o == Cut ==> script == []
      ensures (old(recoveryRequested) ==> recoveryRequested) && (old(BoundToStop()) ==> BoundToStop())
    {
      hide Valid, Resumes, Halted, Paused, CalmButTof, Pressed, Distance, Measured, BlockedAfter, UnansweredAfter;
      hide Faded, Swift, Used;
      SwiftDistance(script);
      BlockedNow(script);
      UnansweredNow(script);
      resumed := false;
      ghost var start := account;
      var distance;
      o, distance := MeasureDistance();
      if o == Cut {
        HaltedUnchecked(start, account);
        return;
      }
      ghost var measured, seen := account, guard;
      NotFaded(seen);
      PausedStart(measured);
      if Obstacle(distance) {
        o := PauseForObstacle();
        resumed := o == Done;
      }
      CheckedCalm(start, measured, account, distance);
      FadedTwice(old(guard), seen, guard);
    }

    method PauseForObstacle() returns (o: Outcome)
      requires Valid()
      modifies this`script, this`log, this`account, this`trail, this`guard,
               this`emergencyStop, this`cleanPause, this`recoveryRequested
      ensures Valid() && Paused(old(account), account) && AllStopped(account.sum)
      ensures o == Done <==> !old(StopRequested()) && Resumes(old(script))
      ensures o == Done ==> recoveryRequested
      ensures Faded(old(guard), guard) && guard.blocked == old(guard).blocked
      ensures o == Cut ==> script == []
      ensures (old(recoveryRequested) ==> recoveryRequested) && (old(BoundToStop()) ==> BoundToStop())
    {
      hide Valid, Resumes, Rest, Halted, Faded;
      ghost var start := account;
      StopForPause();
      HaltedWaited(start, account);
      ghost var stopped, halted := account, guard;
      SetFlags(Standing().(paused := true));
      FadedTwice(old(guard), halted, guard);
      ghost var paused := guard;
      o := SitOutPause();
      FadedTwice(old(guard), paused, guard);
      PausedTwice(start, stopped, account);
    }

    /** A turn of the scoop: send it, wait until the motor stands. */
    method Spin(angle: nat, direction: Direction, speed: nat, timeout: nat) returns (o: Outcome)
      requires Valid() && timeout > 0 && account.sum.openSeen && !account.sum.scoopUnderway
      requires direction != Stop && angle != 360 && !guard.left
      requires Admits(guard, Spinning(angle, direction, speed, timeout))
      modifies this`script, this`log, this`account, this`trail, this`guard,
               this`emergencyStop, this`cleanPause, this`recoveryRequested
      ensures Valid() && account.ok == old(account).ok && Steady(old(account).sum, account.sum)
      ensures KeepsStopped(old(account).sum.stops.(scoopSpin := false), account.sum.stops)
      ensures account.acts == old(account).acts + [Spinning(angle, direction, speed, timeout)]
      ensures old(recoveryRequested) || old(BoundToStop()) ==> o != Done
      ensures (o == Done ==> Ready(guard)) && SameSide(old(guard), guard)
      ensures old(Untroubled()) && Swift(old(script), 3) ==> o == Done && Untroubled() && Used(old(script), script, 3)
      ensures o == Cut ==> script == []
      ensures (old(recoveryRequested) ==> recoveryRequested) && (old(BoundToStop()) ==> BoundToStop())
      ensures WaitTells(Wait(old(Standing()), ScoopSpin, timeout, Middle, old(script)), o, script, Standing())
    {
      hide WaitTells;
      hide Valid, Swift, Used, Ticking, ArrivedWithin, PressedTwice, Over, LeavesAtOnce, Admits, Faded, Clear;
      MotionStays(guard, Spinning(angle, direction, speed, timeout));
      hide GuardNext;
      SendSpin(angle, direction, speed, timeout);
      ghost var sent := guard;
      o := WaitMotor(ScoopSpin, timeout, Middle);
      FadedTurns(sent, guard);
    }

    /** Sends the scoop out and stops it there. */
    method ScoopOutward() returns (o: Outcome)
      requires Valid() && account.sum.openSeen && AtRest(account.sum) && Ready(guard)
      modifies this`script, this`log, this`account, this`trail, this`guard,
               this`emergencyStop, this`cleanPause, this`recoveryRequested
      ensures Valid() && account.ok == old(account).ok && Steady(AfterScoopOut(old(account), 15000).sum, account.sum)
      ensures account.acts == old(account).acts + [Scooping(Forward, 15000)]
      ensures o == Done ==> Stopped(account.sum, ScoopInOut) && AtRest(account.sum)
      ensures old(recoveryRequested) || old(BoundToStop()) ==> o != Done
      ensures (o == Done ==> Ready(guard)) && SameSide(old(guard), guard)
      ensures old(Untroubled()) && Swift(old(script), 3) ==> o == Done && Untroubled() && Used(old(script), script, 3)
      ensures old(Untroubled()) && PressedTwice(old(script)) ==>
                o == Abort && Leaving() && Used(old(script), script, 3) && account.sum.scoopUnderway
      ensures o == Cut ==> script == []
      ensures (old(recoveryRequested) ==> recoveryRequested) && (old(BoundToStop()) ==> BoundToStop())
      ensures WaitTells(Wait(old(Standing()), ScoopInOut, 15000, Open, old(script)), o, script, Standing())
    {
      hide WaitTells, Valid, Swift, Used, Ticking, ArrivedWithin, PressedTwice, LeavesAtOnce, Admits, Faded, Clear;
      SingleAdmitted(guard, Scooping(Forward, 15000));
      MotionStays(guard, Scooping(Forward, 15000));
      hide GuardNext;
      SendScoopOut(15000);
      ghost var sent := guard;
      o := WaitMotor(ScoopInOut, 15000, Open);
      FadedTurns(sent, guard);
      if o != Done {
        return;
      }
      ghost var arrived := guard;
      SendStop(ScoopInOut);
      FadedTurns(arrived, guard);
    }

    /** The wait for the scoop on its way in, which is stopped when it ends well. */
    method WaitForScoop(timeout: nat) returns (o: Outcome)
      requires Valid() && timeout > 0
      modifies this`script, this`log, this`account, this`trail, this`guard,
               this`emergencyStop, this`cleanPause, this`recoveryRequested
      ensures Valid() && Calm(old(account), account)
      ensures o == Done ==> Stopped(account.sum, ScoopInOut)
      ensures o == Done && old(account).sum.scoop == Some(Reverse) ==> !account.sum.scoopUnderway
      ensures old(recoveryRequested) || old(BoundToStop()) ==> o != Done
      ensures o == Done ==> Clear(guard)
      ensures Faded(old(guard), guard)
      ensures old(Untroubled()) && Swift(old(script), 3) ==> o == Done && Untroubled() && Used(old(script), script, 3)
      ensures o == Cut ==> script == []
      ensures (old(recoveryRequested) ==> recoveryRequested) && (old(BoundToStop()) ==> BoundToStop())
      ensures WaitTells(Wait(old(Standing()), ScoopInOut, timeout, Close, old(script)), o, script, Standing())
    {
      hide WaitTells;
      hide Valid, Swift, Used, Ticking, ArrivedWithin, PressedTwice, Paused, Halted, Calm, LeavesAtOnce, Faded, Clear;
      ghost var start := account;
      o := WaitMotor(ScoopInOut, timeout, Close);
      WaitedCalm(start, account);
      if o != Done {
        return;
      }
      ghost var arrived, waited := account, guard;
      CalmMeans(start, arrived);
      SendStop(ScoopInOut);
      FadedTwice(old(guard), waited, guard);
      FadedTurns(waited, guard);
      StoppedHalted(arrived, ScoopInOut);
      HaltedWaited(arrived, account);
      WaitedCalm(arrived, account);
      CalmTwice(start, arrived, account);
    }

    /** Takes the scoop in. Under an obstacle the command goes out too, but the wait that follows gives up. */
    method Retract(timeout: nat) returns (o: Outcome)
      requires Valid() && timeout > 0 && MayRetract(account.sum, timeout)
      requires Obstacle(account.sum.tof.value) ==> recoveryRequested && guard.blocked
      requires !guard.left && Admits(guard, Scooping(Reverse, timeout))
      modifies this`script, this`log, this`account, this`trail, this`guard,
               this`emergencyStop, this`cleanPause, this`recoveryRequested
      ensures Valid() && Steady(AfterScoopIn(old(account), timeout).sum, account.sum)
      ensures account.ok == old(account).ok.(
                              tofClear := old(account).ok.tofClear && !Obstacle(old(account).sum.tof.value),
                              tofAbove := old(account).ok.tofAbove && old(account).sum.tof.value > TOF_LIMIT_MM)
      ensures KeepsStopped(old(account).sum.stops.(scoopInOut := false), account.sum.stops)
      ensures account.acts == old(account).acts + [Scooping(Reverse, timeout)]
      ensures o == Done ==> !Obstacle(account.sum.tof.value) && Stopped(account.sum, ScoopInOut) && AtRest(account.sum)
      ensures old(recoveryRequested) || old(BoundToStop()) ==> o != Done
      ensures o == Done ==> Ready(guard)
      ensures guard.over == (old(guard).over || Obstacle(old(account).sum.tof.value)) && !guard.left
      ensures old(Untroubled()) && Swift(old(script), 3) ==> o == Done && Untroubled() && Used(old(script), script, 3)
      ensures o == Cut ==> script == []
      ensures (old(recoveryRequested) ==> recoveryRequested) && (old(BoundToStop()) ==> BoundToStop())
    {
      hide WaitTells, Valid, Swift, Used, Calm, AfterScoopIn, Steady, CoverPlaced, Obstacle, Admits, Faded, Clear;
      Flagging();
      RetractPasses(guard, timeout);
      hide GuardNext;
      RetractedVerdict(account, timeout);
      SendScoopIn(timeout);
      ghost var sent, under := account, guard;
      o := WaitForScoop(timeout);
      FadedTurns(under, guard);
      CalmKeeps(sent, account);
      CalmMeans(sent, account);
      SteadyReady(sent.sum, account.sum);
    }

    /** drive_main_cover_soft: full speed first, then a ramp up to the target, whatever is pressed meanwhile. */
    method DriveMainCover(direction: Direction, targetSpeed: nat)
      requires Valid() && direction != Stop
      requires Clear(guard) && IsGroup(guard.left, DriveActs(direction, targetSpeed))
      modifies this`script, this`log, this`account, this`trail, this`guard,
               this`emergencyStop, this`cleanPause, this`recoveryRequested
      ensures Valid() && Driven(old(account), account) && Rest(script, old(script))
      ensures account.acts == old(account).acts + DriveActs(direction, targetSpeed)
      ensures guard.left == old(guard).left && guard.over == old(guard).over
      ensures var n := |DriveActs(direction, targetSpeed)| + 1;
              GoneBy(old(Standing()), old(script), n, script, Standing())
      ensures var n := |DriveActs(direction, targetSpeed)| + 1;
              old(Untroubled()) && Swift(old(script), n) ==> Untroubled() && Used(old(script), script, n)
      ensures (old(recoveryRequested) ==> recoveryRequested) && (old(BoundToStop()) ==> BoundToStop())
    {
      hide Valid, Ramp, DriveActs, Driven, Rest, Used, Swift, BoundToStop, Halted, Coming, Faded, Clear, IsGroup;
      hide GoneBy;
      ghost var start, left, n, before := account, script, |DriveActs(direction, targetSpeed)| + 1, guard;
      DriveStart(start.acts, direction, targetSpeed);
      DriveParts(direction, targetSpeed);
      Pass();
      FadedTurns(before, guard);
      ghost var passed := account;
      HaltedKeeps(start, passed);
      HaltedDriven(start, passed);
      ghost var acts := DriveActs(direction, targetSpeed);
      DriveOn(direction, targetSpeed,
              Drive(direction, targetSpeed, start, start.acts + acts, acts, left, n, guard, old(Standing())));
      GoneIsRest(old(Standing()), left, n, script, Standing());
      if old(Untroubled()) {
        SwiftGone(left, n, script, Standing());
      }
    }

    /** Where a drive is when the ramp has come to a duty. */
    ghost predicate Driving(d: Drive, sent: seq<Step>, used: nat, duty: nat)
      reads this`account, this`guard, this`script, this`emergencyStop, this`cleanPause, this`recoveryRequested
    {
      var ramp := Ramp(d.direction, duty, d.target);
      && Driven(d.start, account) && account.acts + ramp == d.whole && sent + ramp == d.group
      && Ending(guard, sent) && IsGroup(guard.left, d.group) && SameSide(d.guard, guard)
      && used + |ramp| == d.n && GoneBy(d.flags, d.left, used, script, Standing())
    }

    /** A drive that is about to begin. */
    ghost predicate MayDrive(d: Drive, duty: nat)
      reads this`account, this`guard, this`script, this`emergencyStop, this`cleanPause, this`recoveryRequested
    {
      var first, ramp := [Covering(d.direction, 100)], Ramp(d.direction, duty, d.target);
      && Coming(d.start, account) && (account.acts + first) + ramp == d.whole && first + ramp == d.group
      && d.n == |ramp| + 2 && Clear(guard) && IsGroup(guard.left, d.group) && SameSide(d.guard, guard)
      && GoneBy(d.flags, d.left, 1, script, Standing())
    }

    /** One that is over. */
    ghost predicate HasDriven(d: Drive)
      reads this`account, this`guard, this`script, this`emergencyStop, this`cleanPause, this`recoveryRequested
    {
      && Driven(d.start, account) && account.acts == d.whole && SameSide(d.guard, guard)
      && GoneBy(d.flags, d.left, d.n, script, Standing())
    }

    lemma DriveOver(d: Drive, sent: seq<Step>, used: nat, duty: nat)
      requires Driving(d, sent, used, duty) && duty > d.target
      ensures HasDriven(d)
    {
      RampOver(account.acts, d.direction, duty, d.target);
      RampOver(sent, d.direction, duty, d.target);
      RampLength(d.direction, duty, d.target);
      hide Ramp, Driven, Ending, GoneBy;
    }

    /** The speeds one after the other, each with the delay after it. */
    method DriveOn(direction: Direction, targetSpeed: nat, ghost d: Drive)
      requires Valid() && direction != Stop && d.direction == direction && d.target == targetSpeed
      requires MayDrive(d, if targetSpeed < 70 then targetSpeed else 70)
      modifies this`script, this`log, this`account, this`trail, this`guard,
               this`emergencyStop, this`cleanPause, this`recoveryRequested
      ensures Valid() && HasDriven(d)
      ensures (old(recoveryRequested) ==> recoveryRequested) && (old(BoundToStop()) ==> BoundToStop())
    {
      hide Valid, BoundToStop, Driving, MayDrive, HasDriven;
      var duty := if targetSpeed < 70 then targetSpeed else 70;
      ghost var sent, used := [Covering(direction, 100)], 2;
      DriveFull(direction, duty, d);
      while duty <= targetSpeed
        invariant Valid() && Driving(d, sent, used, duty)
        invariant (old(recoveryRequested) ==> recoveryRequested) && (old(BoundToStop()) ==> BoundToStop())
        decreases targetSpeed + 10 - duty
      {
        DriveNext(direction, duty, d, sent, used);
        sent, used := sent + [Covering(direction, duty)], used + 1;
        duty := duty + 10;
      }
      DriveOver(d, sent, used, duty);
    }

    method DriveFull(direction: Direction, ghost duty: nat, ghost d: Drive)
      requires Valid() && direction != Stop && d.direction == direction && MayDrive(d, duty)
      modifies this`script, this`log, this`account, this`trail, this`guard,
               this`emergencyStop, this`cleanPause, this`recoveryRequested
      ensures Valid() && Driving(d, [Covering(direction, 100)], 2, duty)
      ensures (old(recoveryRequested) ==> recoveryRequested) && (old(BoundToStop()) ==> BoundToStop())
    {
      hide Valid, Ramp, Driven, Coming, Ending, BoundToStop, GoneBy, Clear, IsGroup;
      ClearEnding(guard, []);
      BeginsWith([Covering(direction, 100)], Ramp(direction, duty, d.target), d.group);
      NoMoreBefore([Covering(direction, 100)]);
      DriveTurn(direction, 100, d.start, [], d.group, d.flags, d.left, 1);
    }

    method DriveNext(direction: Direction, duty: nat, ghost d: Drive, ghost sent: seq<Step>, ghost used: nat)
      requires Valid() && direction != Stop && d.direction == direction && duty <= d.target
      requires Driving(d, sent, used, duty)
      modifies this`script, this`log, this`account, this`trail, this`guard,
               this`emergencyStop, this`cleanPause, this`recoveryRequested
      ensures Valid() && Driving(d, sent + [Covering(direction, duty)], used + 1, duty + 10)
      ensures (old(recoveryRequested) ==> recoveryRequested) && (old(BoundToStop()) ==> BoundToStop())
    {
      hide Valid, Ramp, Driven, Coming, Ending, BoundToStop, GoneBy, IsGroup;
      NextRamp(account.acts, direction, duty, d.target);
      NextRamp(sent, direction, duty, d.target);
      RampLength(direction, duty, d.target);
      BeginsWith(sent + [Covering(direction, duty)], Ramp(direction, duty + 10, d.target), d.group);
      DrivenIsComing(d.start, account);
      DriveTurn(direction, duty, d.start, sent, d.group, d.flags, d.left, used);
    }

    /** One speed, and the delay after it. */
    method DriveTurn(direction: Direction, speed: nat, ghost start: Account, ghost sent: seq<Step>,
                     ghost group: seq<Step>, ghost flags: Flags, ghost left: seq<Instant>, ghost used: nat)
      requires Valid() && direction != Stop && Coming(start, account)
      requires Ending(guard, sent) && sent + [Covering(direction, speed)] <= group && IsGroup(guard.left, group)
      requires GoneBy(flags, left, used, script, Standing())
      modifies this`script, this`log, this`account, this`trail, this`guard,
               this`emergencyStop, this`cleanPause, this`recoveryRequested
      ensures Valid() && Driven(start, account) && GoneBy(flags, left, used + 1, script, Standing())
      ensures account.acts == old(account).acts + [Covering(direction, speed)]
      ensures Ending(guard, sent + [Covering(direction, speed)]) && SameSide(old(guard), guard)
      ensures (old(recoveryRequested) ==> recoveryRequested) && (old(BoundToStop()) ==> BoundToStop())
    {
      hide Valid, Driven, Rest, Used, Swift, Halted, AfterOther, Ending, IsGroup, Admits, Faded, GoneBy;
      ghost var before, behind, standing := account, script, Standing();
      GroupAdmitted(guard, sent, Covering(direction, speed), group);
      MotionStays(guard, Covering(direction, speed));
      hide GuardNext;
      DrivenNext(before, direction, speed);
      SendMainCover(direction, speed);
      ghost var moved, under := account, guard;
      Pass();
      OneMoreGone(flags, left, used, behind, standing, script, Standing());
      FadedEnding(under, guard, sent + [Covering(direction, speed)]);
      FadedTurns(under, guard);
      HaltedKeeps(moved, account);
      DrivenThenHalted(before, moved, account);
      ComingThenDriven(start, before, account);
    }

    /** The plate starts, the main cover opens, and a reading has to confirm it. */
    method OpenMainCover() returns (o: Outcome)
      requires Valid() && account == Blank && Ready(guard) && Untroubled()
      modifies this`script, this`log, this`account, this`trail, this`guard,
               this`emergencyStop, this`cleanPause, this`recoveryRequested
      ensures Valid() && account.ok == Blank.ok && account.acts == OpeningActs()
      ensures o == Done ==> account.sum.openSeen && AtRest(account.sum)
      ensures Swift(old(script), 10) ==> o == Done && Untroubled() && Used(old(script), script, 10)
      ensures PressedAfter(old(script), 6) ==>
                o == Abort && Leaving() && Used(old(script), script, 9) && Untouched(account.sum)
      ensures (o == Done ==> Ready(guard)) && SameSide(old(guard), guard)
      ensures o == Cut ==> script == []
      ensures OpensAsTold(old(Standing()), old(script), o, script)
      ensures (old(recoveryRequested) ==> recoveryRequested) && (old(BoundToStop()) ==> BoundToStop())
    {
      hide GoneBy, OpeningTells, OpensAsTold;
      hide WaitTells, Valid, Swift, Used, PressedTwice, PressedAfter, DriveActs, Admits, Clear, IsSingle;
      SwiftSplit(script, 6, 4);
      PressedSplit(script, 6, 0);
      UsedSplit(script, 6, 3);
      Flagging();
      OpeningAdmitted(guard);
      hide GuardNext;
      SendPlate(Forward);
      assert account.acts == [Command(Plate, Forward, 0, 0, 0)];
      FullDrive(Forward);
      DriveMainCover(Forward, 100);
      PressedNow(script);
      ghost var left, standing := script, Standing();
      o := ConfirmOpen();
      OpensAfter(old(Standing()), old(script), left, standing, o, script);
    }

    method ConfirmOpen() returns (o: Outcome)
      requires Valid() && !guard.left
      modifies this`script, this`log, this`account, this`trail, this`guard,
               this`emergencyStop, this`cleanPause, this`recoveryRequested
      ensures Valid() && Calm(old(account), account)
      ensures o == Done ==> account.sum.openSeen
      ensures old(Untroubled()) && Swift(old(script), 4) ==> o == Done && Untroubled() && Used(old(script), script, 4)
      ensures old(Untroubled()) && PressedTwice(old(script)) ==>
                o == Abort && Leaving() && Used(old(script), script, 3) && Paused(old(account), account)
      ensures (o == Done ==> Ready(guard)) && SameSide(old(guard), guard)
      ensures o == Cut ==> script == []
      ensures OpeningTells(old(Standing()), old(script), o, script)
      ensures (old(recoveryRequested) ==> recoveryRequested) && (old(BoundToStop()) ==> BoundToStop())
    {
      hide WaitTells, ConfirmedTells;
      hide Valid, Swift, Used, Rest, PressedTwice, Paused, Halted, Calm, Read, Seen, PtCheck, Faded, Clear, BoundToStop;
      ghost var start, sent, w0 := account, guard, Wait(Standing(), MainCover, 20000, Open, script);
      SwiftSplit(script, 3, 1);
      o := WaitForMainCover();
      FadedTurns(sent, guard);
      if o != Done {
        NotConfirmed(w0, 1, o, script, Standing());
        return;
      }
      ghost var stopped, waited, middle, standing := account, guard, script, Standing();
      var w;
      o, w := Look();
      FadedTurns(waited, guard);
      ReadOrHaltedCalm(stopped, account, w);
      CalmTwice(start, stopped, account);
      UsedIs(middle, script);
      if o == Done && PtCheck(MainCover, w) != 1 {
        o := Abort;
      }
      ArrivedThenLook(w0, 1, middle, standing, o, script);
    }

    /** The wait for the main cover, which is stopped however it ends. */
    method WaitForMainCover() returns (o: Outcome)
      requires Valid()
      modifies this`script, this`log, this`account, this`trail, this`guard,
               this`emergencyStop, this`cleanPause, this`recoveryRequested
      ensures Valid() && Calm(old(account), account)
      ensures old(Untroubled()) && Swift(old(script), 3) ==> o == Done && Untroubled() && Used(old(script), script, 3)
      ensures old(Untroubled()) && PressedTwice(old(script)) ==>
                o == Abort && Leaving() && Used(old(script), script, 3) && Paused(old(account), account)
      ensures o == Done ==> Clear(guard)
      ensures Faded(old(guard), guard)
      ensures o == Cut ==> script == []
      ensures (old(recoveryRequested) ==> recoveryRequested) && (old(BoundToStop()) ==> BoundToStop())
      ensures WaitTells(Wait(old(Standing()), MainCover, 20000, Open, old(script)), o, script, Standing())
    {
      hide WaitTells;
      hide Valid, Swift, Used, Ticking, ArrivedWithin, PressedTwice, Over, Paused, Halted, Calm, LeavesAtOnce;
      hide Faded, Clear;
      ghost var start := account;
      o := WaitMotor(MainCover, 20000, Open);
      WaitedCalm(start, account);
      if o == Cut {
        return;
      }
      ghost var arrived, waited := account, guard;
      SendStop(MainCover);
      FadedTwice(old(guard), waited, guard);
      FadedTurns(waited, guard);
      StoppedHalted(arrived, MainCover);
      HaltedWaited(arrived, account);
      WaitedCalm(arrived, account);
      CalmTwice(start, arrived, account);
      if Paused(start, arrived) {
        PausedTwice(start, arrived, account);
      }
    }

    /** The first cycle begins with a turn. */
    method TurnDown(first: bool)
      requires Valid() && account.sum.openSeen && AtRest(account.sum) && Ready(guard)
      modifies this`log, this`account, this`trail, this`guard
      ensures Valid() && account.ok == old(account).ok && account.sum.openSeen && AtRest(account.sum)
      ensures account.acts == if !first then old(account).acts
                              else old(account).acts + [Spinning(220, Forward, 140, 5000)]
      ensures SameSide(old(guard), guard)
    {
      hide Valid, Admits, Clear;
      SingleAdmitted(guard, Spinning(220, Forward, 140, 5000));
      MotionStays(guard, Spinning(220, Forward, 140, 5000));
      hide GuardNext;
      if first {
        SendSpin(220, Forward, 140, 5000);
      }
    }

    /** A wait and a look at the stop flags. */
    method WaitAndCheck(ms: nat) returns (o: Outcome)
      requires Valid() && ms >= 100 && !guard.left
      modifies this`script, this`log, this`account, this`trail, this`guard,
               this`emergencyStop, this`cleanPause, this`recoveryRequested
      ensures Valid() && account.ok == old(account).ok && Steady(old(account).sum, account.sum)
      ensures Begins(account.acts, old(account).acts + Delays(Hundreds(ms)))
      ensures o == Done ==> account.acts == old(account).acts + Delays(Hundreds(ms))
      ensures old(Untroubled()) && Swift(old(script), Hundreds(ms) + 1) ==>
                o == Done && Untroubled() && Used(old(script), script, Hundreds(ms) + 1)
      ensures old(Untroubled()) && PausedAt(old(script), Hundreds(ms)) ==> o == Done && cleanPause
      ensures o == Done ==> !StopRequested()
      ensures (o == Done ==> Ready(guard)) && SameSide(old(guard), guard)
      ensures o == Cut ==> script == []
      ensures (old(recoveryRequested) ==> recoveryRequested) && (old(BoundToStop()) ==> BoundToStop())
    {
      hide DelaysTell, PausedAt, Leaving, Ready, SameSide;
      hide Valid, Begins, Delays, Swift, Used, Hundreds, KeepsStopped, Pressed, Faded, Clear, Idle, Halted, Steady;
      hide BoundToStop, Unstopped;
      ghost var start, first := guard, account;
      if PausedAt(script, Hundreds(ms)) {
        OnePress(Unpressed, PauseButton);
      }
      ghost var whole, n := script, Hundreds(ms);
      SwiftBegins(whole, n, 1);
      PausedBegins(whole, n);
      o := WaitDuration(ms);
      FadedTurns(start, guard);
      IdleKeeps(first, account);
      if o != Done {
        return;
      }
      ghost var waited, idled, left := guard, account, script;
      SwiftGoesOn(whole, left, n, 1);
      PausedGoesOn(whole, left, n);
      o := CheckStop();
      FadedTurns(waited, guard);
      FadedTwice(start, waited, guard);
      FadedTurns(start, guard);
      UsedOn(whole, left, script, n, 1);
      HaltedKeeps(idled, account);
      SteadyFromHalted(idled, account);
      SteadyTwice(first.sum, idled.sum, account.sum);
    }

    /** Five seconds in, the scoop goes out; a pause pressed as the seconds end does not keep it back. */
    method ReachOut(first: bool) returns (o: Outcome)
      requires Valid() && account.sum.openSeen && AtRest(account.sum) && Ready(guard)
      modifies this`script, this`log, this`account, this`trail, this`guard,
               this`emergencyStop, this`cleanPause, this`recoveryRequested
      ensures Valid() && account.ok == old(account).ok && account.sum.openSeen
      ensures Begins(account.acts, old(account).acts + ReachActs(first))
      ensures o == Done ==> account.sum.scoop == Some(Forward) && AtRest(account.sum)
      ensures o == Done ==> account.acts == old(account).acts + ReachActs(first)
      ensures old(Untroubled()) && Swift(old(script), 54) ==> o == Done && Untroubled() && Used(old(script), script, 54)
      ensures old(Untroubled()) && PressedAfter(old(script), 51) ==>
                o == Abort && Leaving() && Used(old(script), script, 54) && account.sum.scoopUnderway
      ensures old(Untroubled()) && PausedAt(old(script), 50) ==>
                account.acts == old(account).acts + ReachActs(first)
      ensures (o == Done ==> Ready(guard)) && SameSide(old(guard), guard)
      ensures o == Cut ==> script == []
      ensures (old(recoveryRequested) ==> recoveryRequested) && (old(BoundToStop()) ==> BoundToStop())
    {
      hide WaitTells, Valid, Begins, Delays, ReachActs, Swift, Used, PressedTwice, PressedAfter, Steady, KeepsStopped;
      hide PausedAt, Clear;
      ghost var whole := script;
      SwiftSplit(whole, 51, 3);
      PressedSplit(whole, 51, 0);
      ReachStages(account.acts, first);
      TurnDown(first);
      HundredsIs(5000, 50);
      ghost var turned := account;
      o := WaitAndCheck(5000);
      SteadyReady(turned.sum, account.sum);
      if o != Done {
        return;
      }
      PressedNow(script);
      ghost var waited := account;
      o := ScoopOutward();
      SteadyReady(AfterScoopOut(waited, 15000).sum, account.sum);
    }

    /** The scoop stays out for 90 seconds. */
    method HoldOut() returns (o: Outcome)
      requires Valid() && Ready(guard)
      modifies this`script, this`log, this`account, this`trail, this`guard,
               this`emergencyStop, this`cleanPause, this`recoveryRequested
      ensures Valid() && account.ok == old(account).ok && Steady(old(account).sum, account.sum)
      ensures Begins(account.acts, old(account).acts + Delays(900))
      ensures o == Done ==> account.acts == old(account).acts + Delays(900)
      ensures old(Untroubled()) && Swift(old(script), 902) ==>
                o == Done && Untroubled() && Used(old(script), script, 902)
      ensures (o == Done ==> Ready(guard)) && SameSide(old(guard), guard)
      ensures o == Done ==> !StopRequested()
      ensures o == Cut ==> script == []
      ensures (old(recoveryRequested) ==> recoveryRequested) && (old(BoundToStop()) ==> BoundToStop())
    {
      hide PausedAt, Idle, Leaving, Requested, BoundToStop, Unstopped, SameSide;
      hide Valid, Begins, Delays, Swift, Used, Hundreds, Steady, Halted, Pressed, Faded, Clear;
      ghost var start, under := account, guard;
      ghost var whole := script;
      SwiftBegins(whole, 1, 901);
      FewerDelays(start.acts, 0, 900);
      DelaysStart(start);
      o := CheckStop();
      FadedTurns(under, guard);
      HaltedKeeps(start, account);
      SteadyFromHalted(start, account);
      if o != Done {
        return;
      }
      ghost var checked, left, halted := account, script, guard;
      SwiftGoesOn(whole, left, 1, 901);
      HundredsIs(90 * 1000, 900);
      o := WaitAndCheck(90 * 1000);
      SidesMeet(under, halted, guard);
      SteadyTwice(start.sum, checked.sum, account.sum);
      UsedOn(whole, left, script, 1, 901);
    }

    /** The scoop goes out, stays out for 90 seconds and turns up with what it holds. */
    method Dig(first: bool) returns (o: Outcome)
      requires Valid() && account.sum.openSeen && AtRest(account.sum) && Ready(guard)
      modifies this`script, this`log, this`account, this`trail, this`guard,
               this`emergencyStop, this`cleanPause, this`recoveryRequested
      ensures Valid() && account.ok == old(account).ok && account.sum.openSeen
      ensures Begins(account.acts, old(account).acts + DigActs(first))
      ensures o == Done ==> account.sum.scoop == Some(Forward) && AtRest(account.sum)
      ensures o == Done ==> account.acts == old(account).acts + DigActs(first)
      ensures old(Untroubled()) && Swift(old(script), 959) ==>
                o == Done && Untroubled() && Used(old(script), script, 959)
      ensures old(Untroubled()) && PressedAfter(old(script), 51) ==>
                o == Abort && Leaving() && Used(old(script), script, 54) && account.sum.scoopUnderway
      ensures (o == Done ==> Ready(guard)) && SameSide(old(guard), guard)
      ensures o == Cut ==> script == []
      ensures (old(recoveryRequested) ==> recoveryRequested) && (old(BoundToStop()) ==> BoundToStop())
    {
      hide WaitTells;
      hide Valid, Begins, Delays, ReachActs, DigActs, Swift, Used, PressedAfter, PausedAt, KeepsStopped, Steady;
      hide Admits, Clear;
      SwiftSplit(script, 54, 905);
      DigStages(account.acts, first);
      o := ReachOut(first);
      if o != Done {
        return;
      }
      ghost var reached := account;
      SwiftSplit(script, 902, 3);
      o := HoldOut();
      SteadyReady(reached.sum, account.sum);
      if o != Done {
        return;
      }
      ghost var held := account;
      Flagging();
      OneAdmitted(guard, Spinning(80, Reverse, 100, 10000));
      o := Spin(80, Reverse, 100, 10000);
      SteadyReady(held.sum, account.sum);
    }

    /** The waste cover opens and is stopped there. */
    method OpenWaste() returns (o: Outcome)
      requires Valid() && account.sum.openSeen && AtRest(account.sum) && Ready(guard)
      modifies this`script, this`log, this`account, this`trail, this`guard,
               this`emergencyStop, this`cleanPause, this`recoveryRequested
      ensures Valid() && account.ok == old(account).ok && account.sum.openSeen
      ensures account.acts == old(account).acts + [Wasting(Forward, 15000)]
      ensures o == Done ==> account.sum.waste == Some(Forward) && AtRest(account.sum)
      ensures old(Untroubled()) && Swift(old(script), 3) ==> o == Done && Untroubled() && Used(old(script), script, 3)
      ensures (o == Done ==> Ready(guard)) && SameSide(old(guard), guard)
      ensures o == Cut ==> script == []
      ensures (old(recoveryRequested) ==> recoveryRequested) && (old(BoundToStop()) ==> BoundToStop())
      ensures WaitTells(Wait(old(Standing()), WasteCover, 15000, Open, old(script)), o, script, Standing())
    {
      hide WaitTells;
      hide Valid, Swift, Used, Ticking, ArrivedWithin, PressedTwice, LeavesAtOnce, Paused, Admits, Faded, Clear;
      SingleAdmitted(guard, Wasting(Forward, 15000));
      MotionStays(guard, Wasting(Forward, 15000));
      hide GuardNext;
      SendWaste(Forward, 15000);
      ghost var sent := guard;
      o := WaitMotor(WasteCover, 15000, Open);
      FadedTurns(sent, guard);
      if o != Done {
        return;
      }
      ghost var arrived := guard;
      SendStop(WasteCover);
      FadedTurns(arrived, guard);
    }

    /** And the distance is checked. */
    method OpenAndCheck() returns (o: Outcome, resumed: bool)
      requires Valid() && account.sum.openSeen && AtRest(account.sum) && Ready(guard)
      modifies this`script, this`log, this`account, this`trail, this`guard,
               this`emergencyStop, this`cleanPause, this`recoveryRequested
      ensures Valid() && account.ok == old(account).ok.(answered := account.ok.answered) && account.sum.openSeen
      ensures account.acts == old(account).acts + [Wasting(Forward, 15000)]
      ensures o == Done ==> account.sum.waste == Some(Forward) && AtRest(account.sum)
      ensures o == Done ==>
                && account.sum.tof.Some? && (resumed <==> Obstacle(account.sum.tof.value))
                && account.ok.answered == (old(account).ok.answered && account.sum.tof.value > 0)
      ensures o != Done ==> account.ok.answered == old(account).ok.answered
      ensures resumed ==> o == Done && recoveryRequested
      ensures old(Untroubled()) && BlockedAfter(old(script), 3) ==> resumed
      ensures old(Untroubled()) && UnansweredAfter(old(script), 3) ==> o == Done && account.sum.tof.value <= 0
      ensures (o == Done ==> Ready(guard)) && SameSide(old(guard), guard)
      ensures o == Done ==> guard.blocked == resumed
      ensures old(Untroubled()) && Swift(old(script), 4) ==>
                o == Done && !resumed && Untroubled() && Used(old(script), script, 4)
      ensures o == Cut ==> script == []
      ensures (old(recoveryRequested) ==> recoveryRequested) && (old(BoundToStop()) ==> BoundToStop())
    {
      hide WaitTells, Valid, Swift, Used, Resumes, Requested, Faded, Clear, Pressed, CalmButTof, Distance, KeepsStopped;
      hide BlockedAfter, UnansweredAfter;
      resumed := false;
      SwiftSplit(script, 3, 1);
      BlockedSplit(script, 3, 0);
      UnansweredSplit(script, 3, 0);
      :- OpenWaste();
      ghost var ready, unshut := account, guard;
      o, resumed := CheckTofPause();
      FadedTurns(unshut, guard);
      CheckedKeeps(ready, account);
    }

    /** The waste cover opens, the scoop is taken in over it and turned over. */
    method Dump() returns (o: Outcome, resumed: bool)
      requires Valid() && account.sum.openSeen && AtRest(account.sum) && Ready(guard)
      requires account.ok == Judged(false, account.ok.answered)
      modifies this`script, this`log, this`account, this`trail, this`guard,
               this`emergencyStop, this`cleanPause, this`recoveryRequested
      ensures Valid() && account.ok == Judged(resumed, account.ok.answered) && account.sum.openSeen
      ensures resumed ==> o != Done && recoveryRequested
      ensures Begins(account.acts, old(account).acts + DumpActs())
      ensures o == Done ==> account.sum.waste == Some(Forward) && AtRest(account.sum)
      ensures o == Done ==> account.acts == old(account).acts + DumpActs()
      ensures old(Untroubled()) && BlockedAfter(old(script), 3) ==> resumed
      ensures old(Untroubled()) && UnansweredAfter(old(script), 3) ==> !account.ok.answered
      ensures !old(account).ok.answered ==> !account.ok.answered
      ensures o == Done ==> Ready(guard)
      ensures guard.over == (old(guard).over || resumed) && !guard.left
      ensures old(Untroubled()) && Swift(old(script), 13) ==>
                o == Done && !resumed && Untroubled() && Used(old(script), script, 13)
      ensures o == Cut ==> script == []
      ensures (old(recoveryRequested) ==> recoveryRequested) && (old(BoundToStop()) ==> BoundToStop())
    {
      hide WaitTells, KeepsStopped, Steady, AfterScoopIn;
      hide BoundToStop, Unstopped, Pressed, Requested;
      hide Valid, Begins, DumpActs, BlockedAfter, UnansweredAfter, Swift, Used, Admits, Clear;
      SwiftSplit(script, 4, 9);
      resumed := false;
      DumpStages(account.acts);
      o, resumed := OpenAndCheck();
      if o != Done {
        return;
      }
      SwiftSplit(script, 3, 6);
      SingleAdmitted(guard, Scooping(Reverse, CYCLE_RETRACT_MS));
      ghost var ready := account;
      o := Retract(CYCLE_RETRACT_MS);
      RetractedOpen(ready, account, CYCLE_RETRACT_MS);
      if o != Done {
        return;
      }
      ghost var taken := account;
      SwiftSplit(script, 3, 3);
      SingleAdmitted(guard, Spinning(160, Reverse, 100, 10000));
      o := Spin(160, Reverse, 100, 10000);
      SteadyReady(taken.sum, account.sum);
      if o != Done {
        return;
      }
      ghost var turned := account;
      SingleAdmitted(guard, Spinning(70, Forward, 100, 5000));
      o := Spin(70, Forward, 100, 5000);
      SteadyReady(turned.sum, account.sum);
    }

    /** The scoop is sent out again, twice when its outer limit is not read. */
    method PutBack() returns (o: Outcome, again: bool)
      requires Valid() && account.sum.openSeen && AtRest(account.sum) && Ready(guard)
      modifies this`script, this`log, this`account, this`trail, this`guard,
               this`emergencyStop, this`cleanPause, this`recoveryRequested
      ensures Valid() && account.ok == old(account).ok && account.sum.openSeen
      ensures account.sum.waste == old(account).sum.waste && account.sum.scoop == Some(Forward)
      ensures Begins(account.acts, old(account).acts + PutBackActs(again))
      ensures o == Done ==> Stopped(account.sum, ScoopInOut) && AtRest(account.sum)
      ensures o == Done ==> account.acts == old(account).acts + PutBackActs(again)
      ensures (o == Done ==> Ready(guard)) && SameSide(old(guard), guard)
      ensures old(Untroubled()) && Swift(old(script), 7) ==> o == Done && Untroubled() && Used(old(script), script, 7)
      ensures o == Cut ==> script == []
      ensures PutBackTells(old(Standing()), old(script), o, again)
      ensures (old(recoveryRequested) ==> recoveryRequested) && (old(BoundToStop()) ==> BoundToStop())
    {
      hide WaitTells, BoundToStop, Unstopped, Pressed, Requested;
      hide Valid, PutBackActs, Swift, Used, Rest, PressedTwice, Begins, Seen, Faded, Clear;
      SwiftSplit(script, 3, 4);
      again := false;
      PutBackStages(account.acts);
      LongerIsWhole(account.acts + PutBackActs(false), []);
      LongerIsWhole(account.acts + PutBackActs(true), []);
      o := ScoopOutward();
      if o != Done {
        return;
      }
      ghost var sent, reached, middle, standing := account, guard, script, Standing();
      SwiftSplit(script, 1, 3);
      var w;
      o, w := Look();
      FadedTurns(reached, guard);
      LookedCalm(sent, account, w);
      if o != Done {
        return;
      }
      if PtCheck(ScoopInOut, w) != 1 {
        again := true;
        o := ScoopOutward();
      }
      PutBackSaw(old(Standing()), old(script), middle, standing, o, again);
    }

    /** The waste cover is sent shut, and the delay after it. */
    method SendShut(ghost first: bool)
      requires Valid() && account.sum.openSeen && account.sum.scoop == Some(Forward) && !account.sum.scoopUnderway
      requires Ready(guard)
      modifies this`script, this`log, this`account, this`trail, this`guard,
               this`emergencyStop, this`cleanPause, this`recoveryRequested
      ensures Valid() && account.ok == old(account).ok && account.acts == old(account).acts + [Wasting(Reverse, 15000)]
      ensures Steady(AfterWaste(old(account), Reverse, 15000).sum, account.sum)
      ensures account.sum.openSeen && !account.sum.scoopUnderway
      ensures old(account).sum.stops.scoopInOut ==> account.sum.stops.scoopInOut
      ensures Ending(guard, [Wasting(Reverse, 15000)]) && SameSide(old(guard), guard)
      ensures old(Untroubled()) && Swift(old(script), 1) ==> Untroubled() && Used(old(script), script, 1)
      ensures (old(recoveryRequested) ==> recoveryRequested) && (old(BoundToStop()) ==> BoundToStop())
    {
      hide Valid, Ending, Halted, Rest, Used, Swift, AfterWaste, Steady, Admits, Faded, Clear, CloseWasteActs;
      ghost var shut, group := Wasting(Reverse, 15000), CloseWasteActs(first, 2);
      CloseBegins(first);
      ClearEnding(guard, []);
      NoMoreBefore([shut]);
      GroupAdmitted(guard, [], shut, group);
      MotionStays(guard, shut);
      hide GuardNext, IsGroup;
      ShutKeeps(account);
      SendWaste(Reverse, 15000);
      ghost var sent, under := account, guard;
      Pass();
      FadedEnding(under, guard, [shut]);
      FadedTurns(under, guard);
      HaltedKeeps(sent, account);
      SteadyFromHalted(sent, account);
    }

    method StartClosing(first: bool)
      requires Valid() && account.sum.openSeen && account.sum.scoop == Some(Forward) && !account.sum.scoopUnderway
      requires Ready(guard)
      modifies this`script, this`log, this`account, this`trail, this`guard,
               this`emergencyStop, this`cleanPause, this`recoveryRequested
      ensures Valid() && account.ok == old(account).ok && account.acts == old(account).acts + CloseWasteActs(first, 0)
      ensures Steady(AfterWaste(old(account), Reverse, 15000).sum, account.sum)
      ensures old(account).sum.stops.scoopInOut ==> account.sum.stops.scoopInOut
      ensures Ending(guard, CloseWasteActs(first, 0)) && SameSide(old(guard), guard)
      ensures old(Untroubled()) && Swift(old(script), 1) ==> Untroubled() && Used(old(script), script, 1)
      ensures (old(recoveryRequested) ==> recoveryRequested) && (old(BoundToStop()) ==> BoundToStop())
    {
      hide Valid, CloseWasteActs, Ending, AfterWaste, AfterSpin, Steady, Clear, Admits, Used, Swift;
      ghost var start := account;
      CloseStart(start.acts, first);
      CloseGroup(first);
      CloseBegins(first);
      SendShut(first);
      if first {
        ghost var sent := account;
        GroupAdmitted(guard, [Wasting(Reverse, 15000)], Spinning(170, Forward, 140, 5000), CloseWasteActs(first, 2));
        MotionStays(guard, Spinning(170, Forward, 140, 5000));
        hide GuardNext;
        SpinKeeps(sent, Spinning(170, Forward, 140, 5000));
        SendSpin(170, Forward, 140, 5000);
        SteadyTwice(AfterWaste(start, Reverse, 15000).sum, sent.sum, account.sum);
      }
    }

    /** Open a little and shut again, half a second apart, without a look at the flags. */
    method CloseAgain(ghost sent: seq<Step>, ghost group: seq<Step>)
      requires Valid() && account.sum.openSeen && account.sum.scoop == Some(Forward) && !account.sum.scoopUnderway
      requires Ending(guard, sent) && IsGroup(guard.left, group)
      requires (sent + [Wasting(Forward, 3000)]) + [Wasting(Reverse, 15000)] <= group
      modifies this`script, this`log, this`account, this`trail, this`guard,
               this`emergencyStop, this`cleanPause, this`recoveryRequested
      ensures Valid() && account.ok == old(account).ok
      ensures account.acts == (old(account).acts + [Wasting(Forward, 3000)]) + [Wasting(Reverse, 15000)]
      ensures Steady(old(account).sum.(waste := Some(Reverse), wasteUnderway := true, wasteClosedSeen := false,
                                       wasteMotions := old(account).sum.wasteMotions + 2), account.sum)
      ensures old(account).sum.stops.scoopInOut ==> account.sum.stops.scoopInOut
      ensures Ending(guard, (sent + [Wasting(Forward, 3000)]) + [Wasting(Reverse, 15000)])
      ensures SameSide(old(guard), guard)
      ensures |script| <= |old(script)|
      ensures (old(recoveryRequested) ==> recoveryRequested) && (old(BoundToStop()) ==> BoundToStop())
    {
      hide Valid, Ending, Halted, Rest, Used, Swift, Admits, Faded, IsGroup;
      ghost var ajar := sent + [Wasting(Forward, 3000)];
      GroupAdmitted(guard, sent, Wasting(Forward, 3000), group);
      MotionStays(guard, Wasting(Forward, 3000));
      hide GuardNext;
      SendWaste(Forward, 3000);
      ghost var moved, under := account, guard;
      Pass();
      FadedEnding(under, guard, ajar);
      FadedTurns(under, guard);
      HaltedKeeps(moved, account);
      GroupAdmitted(guard, ajar, Wasting(Reverse, 15000), group);
      MotionStays(guard, Wasting(Reverse, 15000));
      SendWaste(Reverse, 15000);
    }

    /**
     Closes the waste cover, in up to three tries. A try that fails for whatever reason, a stop included, is
     followed by the next one, so giving up means that all five motions were sent, and whichever of them come after a
     stop are sent after it all the same.
     */
    method CloseWaste(first: bool) returns (o: Outcome, retries: nat)
      requires Valid() && account.sum.openSeen
      requires account.sum.scoop == Some(Forward) && !account.sum.scoopUnderway && Ready(guard)
      modifies this`script, this`log, this`account, this`trail, this`guard,
               this`emergencyStop, this`cleanPause, this`recoveryRequested
      ensures Valid() && account.ok == old(account).ok && account.sum.openSeen && retries <= 2
      ensures account.sum.scoop == Some(Forward) && account.sum.waste == Some(Reverse)
      ensures account.sum.tof == old(account).sum.tof
      ensures o == Done ==> account.sum.wasteClosedSeen && Stopped(account.sum, WasteCover) && AtRest(account.sum)
      ensures account.acts == old(account).acts + CloseWasteActs(first, retries)
      ensures o == Abort ==> retries == 2 && account.sum.wasteMotions == old(account).sum.wasteMotions + 5
      ensures old(account).sum.stops.scoopInOut ==> account.sum.stops.scoopInOut
      ensures old(recoveryRequested) || old(BoundToStop()) ==> o != Done
      ensures (o == Done ==> Ready(guard)) && SameSide(old(guard), guard)
      ensures old(Untroubled()) && Swift(old(script), 5) ==> o == Done && Untroubled() && Used(old(script), script, 5)
      ensures o == Cut ==> script == []
      ensures (old(recoveryRequested) ==> recoveryRequested) && (old(BoundToStop()) ==> BoundToStop())
    {
      hide BoundToStop, Unstopped, Pressed, Requested;
      hide Valid, CloseWasteActs, Ending, Faded, Clear, IsGroup, Used, Swift, Closing, Calm, Steady, AfterWaste;
      ghost var start, held := account, guard;
      SwiftSplit(script, 1, 4);
      CloseBegins(first);
      CloseIsGroup(first);
      StartClosing(first);
      ClosingStarts(start, held, account, guard, first);
      retries := 0;
      ghost var closing, shut := account, guard;
      o := TryClosed();
      ClosingStays(start, held, closing, shut, account, guard, first, 0);
      ghost var tried := script;
      while o == Abort && retries < 2
        invariant Valid() && retries <= 2 && Closing(start, held, account, guard, first, retries)
        invariant (old(recoveryRequested) ==> recoveryRequested) && (old(BoundToStop()) ==> BoundToStop())
        invariant retries == 0 ==> script == tried
        invariant old(Untroubled()) && Swift(old(script), 5) ==> o == Done && Untroubled() && retries == 0
        invariant o == Cut ==> script == []
        invariant o == Done ==>
                    && account.sum.wasteClosedSeen && Stopped(account.sum, WasteCover) && !account.sum.wasteUnderway
                    && Clear(guard)
        invariant old(recoveryRequested) || old(BoundToStop()) ==> o != Done
        decreases 2 - retries
      {
        o, retries := CloseOnceMore(first, retries, start, held);
      }
      ClosingMeans(start, held, account, guard, first, retries);
    }

    /** One more try. */
    method CloseOnceMore(first: bool, tried: nat, ghost start: Account, ghost held: Guard)
      returns (o: Outcome, retries: nat)
      requires Valid() && tried < 2 && Closing(start, held, account, guard, first, tried)
      modifies this`script, this`log, this`account, this`trail, this`guard,
               this`emergencyStop, this`cleanPause, this`recoveryRequested
      ensures Valid() && retries == tried + 1 && Closing(start, held, account, guard, first, retries)
      ensures o == Done ==>
                && account.sum.wasteClosedSeen && Stopped(account.sum, WasteCover) && !account.sum.wasteUnderway
                && Clear(guard)
      ensures old(recoveryRequested) || old(BoundToStop()) ==> o != Done
      ensures o == Cut ==> script == []
      ensures (old(recoveryRequested) ==> recoveryRequested) && (old(BoundToStop()) ==> BoundToStop())
    {
      hide BoundToStop, Unstopped, Pressed, Requested;
      hide Valid, CloseWasteActs, Ending, Faded, Clear, IsGroup, Used, Swift, Closing, Calm;
      ghost var sent, group := CloseWasteActs(first, tried), CloseWasteActs(first, 2);
      CloseNext(start.acts, first, tried);
      CloseGoesOn(first, tried);
      CloseIsGroup(first);
      ClosingMeans(start, held, account, guard, first, tried);
      ghost var before, under := account, guard;
      CloseAgain(sent, group);
      ClosingAgain(start, held, before, under, account, guard, first, tried);
      ClosingMeans(start, held, account, guard, first, tried + 1);
      retries := tried + 1;
      ghost var closing, shut := account, guard;
      o := TryClosed();
      ClosingStays(start, held, closing, shut, account, guard, first, retries);
    }

    /** One wait for the waste cover, stopped at its end. */
    method WaitForWaste() returns (o: Outcome)
      requires Valid()
      modifies this`script, this`log, this`account, this`trail, this`guard,
               this`emergencyStop, this`cleanPause, this`recoveryRequested
      ensures Valid() && Calm(old(account), account)
      ensures o == Done ==> Stopped(account.sum, WasteCover)
      ensures o == Done && old(account).sum.waste == Some(Reverse) ==> !account.sum.wasteUnderway
      ensures old(recoveryRequested) || old(BoundToStop()) ==> o != Done
      ensures o == Done ==> Clear(guard)
      ensures Faded(old(guard), guard)
      ensures old(Untroubled()) && Swift(old(script), 3) ==> o == Done && Untroubled() && Used(old(script), script, 3)
      ensures o == Cut ==> script == []
      ensures (old(recoveryRequested) ==> recoveryRequested) && (old(BoundToStop()) ==> BoundToStop())
      ensures WaitTells(Wait(old(Standing()), WasteCover, 15000, Close, old(script)), o, script, Standing())
    {
      hide WaitTells;
      hide Valid, Swift, Used, Ticking, ArrivedWithin, PressedTwice, Paused, Halted, Calm, LeavesAtOnce, Faded, Clear;
      ghost var start := account;
      o := WaitMotor(WasteCover, 15000, Close);
      WaitedCalm(start, account);
      if o != Done {
        return;
      }
      ghost var arrived, waited := account, guard;
      CalmMeans(start, arrived);
      SendStop(WasteCover);
      FadedTwice(old(guard), waited, guard);
      FadedTurns(waited, guard);
      StoppedHalted(arrived, WasteCover);
      HaltedWaited(arrived, account);
      WaitedCalm(arrived, account);
      CalmTwice(start, arrived, account);
    }

    /** One try to close the waste cover; it is closed when its sensor says so. */
    method TryClosed() returns (o: Outcome)
      requires Valid()
      modifies this`script, this`log, this`account, this`trail, this`guard,
               this`emergencyStop, this`cleanPause, this`recoveryRequested
      ensures Valid() && Calm(old(account), account)
      ensures o == Done ==> account.sum.wasteClosedSeen && Stopped(account.sum, WasteCover)
      ensures o == Done && old(account).sum.waste == Some(Reverse) ==> !account.sum.wasteUnderway
      ensures old(recoveryRequested) || old(BoundToStop()) ==> o != Done
      ensures o == Done ==> Clear(guard)
      ensures Faded(old(guard), guard)
      ensures old(Untroubled()) && Swift(old(script), 4) ==> o == Done && Untroubled() && Used(old(script), script, 4)
      ensures o == Cut ==> script == []
      ensures ConfirmedTells(Wait(old(Standing()), WasteCover, 15000, Close, old(script)), -1, o, script)
      ensures (old(recoveryRequested) ==> recoveryRequested) && (old(BoundToStop()) ==> BoundToStop())
    {
      hide WaitTells, ConfirmedTells, BoundToStop, Unstopped, Pressed, Requested;
      hide Valid, Swift, Used, Rest, Halted, Calm, Read, Seen, PtCheck, Faded, Clear;
      SwiftSplit(script, 3, 1);
      EasyIsShut();
      ghost var start, w0 := account, Wait(Standing(), WasteCover, 15000, Close, script);
      o := WaitForWaste();
      if o != Done {
        NotConfirmed(w0, -1, o, script, Standing());
        return;
      }
      ghost var stopped, waited, middle, standing := account, guard, script, Standing();
      var w;
      o, w := Look();
      FadedTwice(old(guard), waited, guard);
      FadedTurns(waited, guard);
      LookedCalm(stopped, account, w);
      CalmMeans(stopped, account);
      CalmTwice(start, stopped, account);
      if o == Done && PtCheck(WasteCover, w) != -1 {
        o := Abort;
      }
      UsedIs(middle, script);
      ArrivedThenLook(w0, -1, middle, standing, o, script);
    }

    method Cycle(first: bool) returns (o: Outcome, again: bool, retries: nat, resumed: bool)
      requires Valid() && account.sum.openSeen && AtRest(account.sum) && Ready(guard)
      requires account.ok == Judged(false, account.ok.answered)
      modifies this`script, this`log, this`account, this`trail, this`guard,
               this`emergencyStop, this`cleanPause, this`recoveryRequested
      ensures Valid() && account.ok == Judged(resumed, account.ok.answered) && account.sum.openSeen && retries <= 2
      ensures resumed ==> o != Done && recoveryRequested
      ensures Begins(account.acts, old(account).acts + CycleActs(first, again, retries))
      ensures o == Done ==>
                && account.sum.waste == Some(Reverse) && account.sum.wasteClosedSeen
                && account.sum.scoop == Some(Forward) && Stopped(account.sum, WasteCover) && AtRest(account.sum)
      ensures o == Done ==> account.acts == old(account).acts + CycleActs(first, again, retries)
      ensures old(Untroubled()) && PressedAfter(old(script), 51) ==>
                o == Abort && Leaving() && Used(old(script), script, 54) && account.sum.scoopUnderway
      ensures old(Untroubled()) && BlockedAfter(old(script), 962) ==> resumed
      ensures old(Untroubled()) && UnansweredAfter(old(script), 962) ==> !account.ok.answered
      ensures !old(account).ok.answered ==> !account.ok.answered
      ensures o == Done ==> Ready(guard)
      ensures guard.over == (old(guard).over || resumed) && !guard.left
      ensures old(Untroubled()) && Swift(old(script), 984) ==>
                o == Done && !resumed && Untroubled() && Used(old(script), script, 984)
      ensures o == Cut ==> script == []
      ensures (old(recoveryRequested) ==> recoveryRequested) && (old(BoundToStop()) ==> BoundToStop())
    {
      hide KeepsStopped, Steady, PutBackTells;
      hide BoundToStop, Unstopped, Pressed, Requested;
      hide Valid, Begins, CycleActs, DigActs, DumpActs, PutBackActs, CloseWasteActs;
      hide Swift, Used, PressedAfter, BlockedAfter, UnansweredAfter, Judged, Clear;
      SwiftSplit(script, 959, 25);
      again, retries, resumed := false, 0, false;
      BlockedSplit(script, 959, 3);
      UnansweredSplit(script, 959, 3);
      ghost var start := account.acts;
      CycleStages(start, first, false, 0);
      :- Dig(first);
      SwiftSplit(script, 13, 12);
      o, resumed := Dump();
      if o != Done {
        return;
      }
      SwiftSplit(script, 7, 5);
      o, again := PutBack();
      CycleStages(start, first, again, 0);
      if o != Done {
        return;
      }
      o, retries := CloseWaste(first);
      CycleStages(start, first, again, retries);
    }

    // ------------------------------------------------------ the search for the start sensor

    method CheckEmergency() returns (o: Outcome)
      requires Valid()
      modifies this`script, this`log, this`account, this`trail, this`guard,
               this`emergencyStop, this`cleanPause, this`recoveryRequested
      ensures Valid() && Halted(old(account), account)
      ensures Rest(script, old(script)) && (o == Cut ==> script == [])
      ensures o == Done ==> !emergencyStop && guard.underStop == [] && Used(old(script), script, 1)
      ensures (o == Abort ==> emergencyStop) && (old(Unstopped()) ==> o != Abort)
      ensures old(Untroubled()) && Swift(old(script), 1) ==> o == Done && Untroubled() && Used(old(script), script, 1)
      ensures (old(recoveryRequested) ==> recoveryRequested) && (old(BoundToStop()) ==> BoundToStop())
      ensures Faded(old(guard), guard)
      ensures old(Unstopped()) ==> Unstopped()
      ensures (o == Cut <==> old(script) == []) && (o != Cut ==> script == old(script)[1..])
      ensures old(script) == [] || old(script)[0].presses == [] ==>
                SameUnder(old(guard), guard) && Standing() == old(Standing())
    {
      hide Pressed;
      hide Valid, Halted, Rest, Swift, Used, Faded;
      SwiftStart(script, 1);
      UsedOne(script);
      RestNext(script);
      var now;
      o, now := Poll();
      Flagging();
      if o == Done && emergencyStop {
        o := Abort;
      }
    }

    /**
     scp_spin_find_st_origin: turns until the start sensor is seen, or lost and seen again when it is on it.
     Only the emergency stop gives it up: the request and the pause are not looked at, and under them it goes on with
     full turns. Each search ends after 30 s at the latest, but a search that did not find the sensor is started over;
     without a stop the whole ends if and only if AfterOrigin says so. It can end well off the sensor, when the last
     search timed out: `begun` is the script when that search began. `read` is the word before the first turn.
     */
    method FindSpinOrigin(searchDirection: Direction)
      returns (o: Outcome, seated: bool, ghost read: Option<Word>, ghost begun: seq<Instant>)
      requires Valid() && searchDirection != Stop && Turned(guard)
      modifies this`script, this`log, this`account, this`trail, this`guard,
               this`emergencyStop, this`cleanPause, this`recoveryRequested
      ensures Valid() && Spun(old(account), account, read) && Rest(script, old(script))
      ensures read.None? ==> Halted(old(account), account) && o != Done
      ensures read.Some? ==> |old(script)| > 1 && read == Some(old(script)[1].word)
      ensures o == Done && seated ==> account.sum.onStart
      ensures o == Done && !seated ==> Rest(begun, old(script)) && TimeUp(begun, script)
      ensures Turning(guard) && SameSide(old(guard), guard) && (o == Done ==> guard.underStop == [])
      ensures old(Unstopped()) ==> Unstopped()
      ensures old(Unstopped()) ==> Ended(o, script, AfterOrigin(old(script)))
      ensures OriginTells(old(Standing()), searchDirection, old(guard), guard, old(script))
      ensures old(Untroubled()) && Swift(old(script), 7) ==>
                o == Done && Untroubled() && Used(old(script), script, 7) && read == Some(EASY)
      ensures old(recoveryRequested) ==> recoveryRequested
      ensures o == Cut ==> script == []
      ensures CaughtIn(old(script), 2) && !old(emergencyStop) ==> o == Cut
      decreases |script|, 1
    {
      hide Valid, Halted, Spun, Rest, TimeUp, Swift, Used, Calm, Faded, Turned, Turning, OriginTells, LookTells;
      hide AfterLook, SameUnder, NeverStopped, BoundToStop, Unstopped;
      seated, read, begun := false, None, [];
      ghost var start, whole, held := account, script, guard;
      SwiftSplit(whole, 1, 6);
      CaughtIs(whole);
      OriginEndsWell(whole);
      hide AfterOrigin, CaughtIn, Caught, Dark, IsEasy, IsQuiet;
      o := CheckEmergency();
      FadedTurns(held, guard);
      if o != Done {
        OriginEnds(old(Standing()), searchDirection, held, guard, whole);
        HaltedWaited(start, account);
        WaitedCalm(start, account);
        CalmIsNoSearch(start, account);
        return;
      }
      ghost var checked, left, ready, flags := account, script, guard, Standing();
      UsedFirst(whole, left);
      o, seated, read, begun := FindFromHere(searchDirection);
      OriginFromLook(old(Standing()), flags, searchDirection, held, ready, guard, whole);
      HaltedThenSpun(start, checked, account, read);
      if read.None? {
        HaltedTwice(start, checked, account);
      }
      RestOfRest(script, left, whole);
      if o == Done && !seated {
        RestOfRest(begun, left, whole);
      }
    }

    method FindFromHere(searchDirection: Direction)
      returns (o: Outcome, seated: bool, ghost read: Option<Word>, ghost begun: seq<Instant>)
      requires Valid() && searchDirection != Stop && Turned(guard)
      modifies this`script, this`log, this`account, this`trail, this`guard,
               this`emergencyStop, this`cleanPause, this`recoveryRequested
      ensures Valid() && Spun(old(account), account, read) && Rest(script, old(script))
      ensures read.None? ==> Halted(old(account), account) && o != Done
      ensures read.Some? ==> old(script) != [] && read == Some(old(script)[0].word)
      ensures o == Done && seated ==> account.sum.onStart
      ensures o == Done && !seated ==> Rest(begun, old(script)) && TimeUp(begun, script)
      ensures Turning(guard) && SameSide(old(guard), guard) && (o == Done ==> guard.underStop == [])
      ensures old(Unstopped()) ==> Unstopped()
      ensures old(Unstopped()) ==> Ended(o, script, AfterLook(old(script)))
      ensures LookTells(old(Standing()), searchDirection, old(guard), guard, old(script))
      ensures old(Untroubled()) && Swift(old(script), 6) ==>
                o == Done && Untroubled() && Used(old(script), script, 6) && read == Some(EASY)
      ensures old(recoveryRequested) ==> recoveryRequested
      ensures o == Cut ==> script == []
      ensures CaughtIn(old(script), 1) && !old(emergencyStop) ==> o == Cut
      decreases |script|, 0
    {
      hide BoundToStop, Requested;
      hide Valid, Halted, Spun, Rest, TimeUp, Swift, Used, Calm, SpinOnly, Read, Faded, Turned, Turning, LookTells;
      hide Unstopped;
      hide SameUnder, NeverStopped, AfterOrigin, AfterReseat, AfterCheckedSearch, Pressed, OriginTells, TurnTells, Dark;
      seated, read, begun := false, None, [];
      ghost var start, whole, held := account, script, guard;
      SwiftSplit(whole, 1, 5);
      CaughtIs(whole);
      LookEndsWell(whole);
      hide AfterLook, CaughtIn, Caught, IsEasy, IsQuiet;
      RestNext(whole);
      var w;
      o, w := Look();
      FadedTurns(held, guard);
      if o != Done {
        LookEnds(old(Standing()), searchDirection, held, guard, whole);
        HaltedWaited(start, account);
        WaitedCalm(start, account);
        CalmIsNoSearch(start, account);
        return;
      }
      read := Some(w);
      ghost var looked, left := account, script;
      RestShorter(left, whole);
      UsedIs(whole, left);
      TurnedStops(held);
      if w.spinStart {
        LookEnds(old(Standing()), searchDirection, held, guard, whole);
        o, seated, begun := Reseat();
        LookEnds(old(Standing()), searchDirection, held, guard, whole);
      } else {
        o, seated, begun := SearchOn(searchDirection, old(Standing()), held, whole);
      }
      ReadThenSpin(start, looked, account, w);
      RestOfRest(script, left, whole);
      if o == Done && !seated {
        RestOfRest(begun, left, whole);
      }
    }

    /** Off the sensor: a search, and the whole over again. */
    method SearchOn(searchDirection: Direction, ghost f: Flags, ghost before: Guard, ghost whole: seq<Instant>)
      returns (o: Outcome, seated: bool, ghost begun: seq<Instant>)
      requires Valid() && searchDirection != Stop && Turned(guard) && before.underStop == []
      requires whole != [] && script == whole[1..] && !whole[0].word.spinStart
      requires Standing() == Pressed(f, whole[0].presses) && (whole[0].presses == [] ==> SameUnder(before, guard))
      modifies this`script, this`log, this`account, this`trail, this`guard,
               this`emergencyStop, this`cleanPause, this`recoveryRequested
      ensures Valid() && SpinOnly(old(account), account) && Rest(script, old(script))
      ensures o == Done && seated ==> account.sum.onStart
      ensures o == Done && !seated ==> Rest(begun, old(script)) && TimeUp(begun, script)
      ensures Turning(guard) && SameSide(old(guard), guard) && (o == Done ==> guard.underStop == [])
      ensures old(Unstopped()) ==> Unstopped()
      ensures old(Unstopped()) ==> Ended(o, script, AfterLook(whole))
      ensures LookTells(f, searchDirection, before, guard, whole)
      ensures old(recoveryRequested) ==> recoveryRequested
      ensures o == Cut ==> script == []
      ensures old(script) == [] ==> o == Cut
      decreases |script|, 0
    {
      hide Valid, Halted, Spun, Rest, TimeUp, Calm, SpinOnly, Turning, LookTells;
      hide SameUnder, NeverStopped, AfterOrigin, AfterReseat, Pressed, OriginTells, TurnTells, Dark;
      seated, begun := false, [];
      ghost var looked, left, ready, flags := account, script, guard, Standing();
      TurnedStops(ready);
      DarkSearch(left);
      DarkGoesOn(f, flags, whole);
      o := SearchAndCheck(searchDirection, true);
      if o != Done {
        LookThenCut(f, flags, searchDirection, before, ready, guard, whole);
        return;
      }
      ghost var searched, behind, turned, later := account, script, guard, Standing();
      RestShorter(behind, left);
      ghost var again;
      o, seated, again, begun := FindSpinOrigin(searchDirection);
      LookThenOrigin(f, flags, later, searchDirection, before, ready, turned, guard, whole);
      SpinThenSearch(looked, searched, account, again);
      RestOfRest(script, behind, left);
      if o == Done && !seated {
        RestOfRest(begun, behind, left);
      }
    }

    /** Off the start sensor and back onto it. */
    method Reseat() returns (o: Outcome, seated: bool, ghost begun: seq<Instant>)
      requires Valid() && Turned(guard)
      modifies this`script, this`log, this`account, this`trail, this`guard,
               this`emergencyStop, this`cleanPause, this`recoveryRequested
      ensures Valid() && SpinOnly(old(account), account) && Rest(script, old(script))
      ensures o == Done && seated ==> account.sum.onStart
      ensures o == Done && !seated ==> Rest(begun, old(script)) && TimeUp(begun, script)
      ensures Turning(guard) && SameSide(old(guard), guard) && (o == Done ==> guard.underStop == [])
      ensures old(Unstopped()) ==> Unstopped()
      ensures old(Unstopped()) ==> Ended(o, script, AfterReseat(old(script)))
      ensures old(Untroubled()) && Swift(old(script), 5) ==> o == Done && Untroubled() && Used(old(script), script, 5)
      ensures old(recoveryRequested) ==> recoveryRequested
      ensures o == Cut ==> script == []
    {
      hide Valid, SpinOnly, Rest, TimeUp, Swift, Used, Turning, AfterSearch, AfterCheckedSearch, NeverStopped;
      hide TurnTells;
      o, seated := Done, false;
      ghost var start, whole := account, script;
      SwiftSplit(whole, 3, 2);
      begun := [];
      :- SearchAndCheck(Reverse, false);
      ghost var checked := account;
      begun := script;
      o, seated := Search(Forward, true);
      SpinTwice(start, checked, account);
      RestOfRest(script, begun, whole);
    }

    method SearchAndCheck(direction: Direction, wanted: bool) returns (o: Outcome)
      requires Valid() && direction != Stop && Turned(guard)
      modifies this`script, this`log, this`account, this`trail, this`guard,
               this`emergencyStop, this`cleanPause, this`recoveryRequested
      ensures Valid() && SpinOnly(old(account), account) && Rest(script, old(script))
      ensures o == Done ==> !emergencyStop
      ensures Turning(guard) && SameSide(old(guard), guard) && (o == Done ==> guard.underStop == [])
      ensures old(Unstopped()) ==> Unstopped()
      ensures old(Unstopped()) ==> Ended(o, script, AfterCheckedSearch(old(script), wanted))
      ensures TurnTells(old(Standing()), direction, old(guard), guard, old(script))
      ensures Dark(old(script)) ==> Standing() == old(Standing())
      ensures old(Untroubled()) && Swift(old(script), 3) ==> o == Done && Untroubled() && Used(old(script), script, 3)
      ensures old(recoveryRequested) ==> recoveryRequested
      ensures o == Cut ==> script == []
      ensures (o != Cut ==> |script| < |old(script)|) && (old(script) == [] ==> o == Cut)
    {
      hide Valid, SpinOnly, Rest, TimeUp, Swift, Used, Halted, Calm, Turning, AfterSearch, NeverStopped, TurnTells;
      hide Dark;
      hide Faded, SameUnder;
      o := Done;
      ghost var start, whole := account, script;
      SwiftSplit(whole, 2, 1);
      var seen :- Search(direction, wanted);
      ghost var searched, left, turned := account, script, guard;
      o := CheckEmergency();
      FadedTurns(turned, guard);
      TurnCounts(old(Standing()), direction, old(guard), turned, guard, whole, left);
      HaltedWaited(searched, account);
      WaitedCalm(searched, account);
      SpinThenCalm(start, searched, account);
      RestOfRest(script, left, whole);
    }

    /** Turns until the start sensor reads as wanted, for 30 s at most; the motor is stopped either way. */
    method Search(direction: Direction, wanted: bool) returns (o: Outcome, seen: bool)
      requires Valid() && direction != Stop && Turned(guard)
      modifies this`script, this`log, this`account, this`trail, this`guard,
               this`emergencyStop, this`cleanPause, this`recoveryRequested
      ensures Valid() && SpinOnly(old(account), account) && Rest(script, old(script))
      ensures o != Cut ==> Stopped(account.sum, ScoopSpin)
      ensures o == Done && seen ==> account.sum.onStart == wanted
      ensures o == Done && !seen ==> TimeUp(old(script), script)
      ensures Turning(guard) && SameSide(old(guard), guard) && (!old(emergencyStop) ==> guard.underStop == [])
      ensures old(Unstopped()) ==> Unstopped()
      ensures old(Unstopped()) ==> Ended(o, script, AfterSearch(old(script), wanted))
      ensures TurnTells(old(Standing()), direction, old(guard), guard, old(script))
      ensures Dark(old(script)) ==> Standing() == old(Standing())
      ensures old(Untroubled()) && Swift(old(script), 2) ==> o == Done && Untroubled() && Used(old(script), script, 2)
      ensures old(recoveryRequested) ==> recoveryRequested
      ensures o == Cut ==> script == []
      ensures (o != Cut ==> |script| < |old(script)|) && (old(script) == [] ==> o == Cut)
    {
      hide Valid, SpinOnly, Rest, TimeUp, Swift, Used, Calm, Turning, AfterSearch, NeverStopped, TurnTells, Dark;
      hide Faded, SameUnder, Added, Turned, Ended, Unstopped, FullTurn;
      ghost var start, held := account, guard;
      SendFullTurn(direction);
      ghost var turning, moved := account, guard;
      o, seen := WatchAndStop(wanted);
      FadedTurns(moved, guard);
      TurnFrom(old(Standing()), direction, held, moved, guard, old(script));
      SpinThenCalm(start, turning, account);
    }

    method SendFullTurn(direction: Direction)
      requires Valid() && direction != Stop && Turned(guard)
      modifies this`log, this`account, this`trail, this`guard
      ensures Valid() && SpinOnly(old(account), account)
      ensures Turning(guard) && SameSide(old(guard), guard) && Added(old(guard), guard, Standing(), 1)
      ensures old(guard).underStop == [] && guard.underStop == if emergencyStop then [FullTurn(direction)] else []
    {
      hide Valid, SpinOnly, AfterSpin, Turning, Admits, Added, Turned;
      ghost var held, turn := guard, FullTurn(direction);
      SpinOnlyStart(account, direction);
      Flagging();
      TurnedStops(held);
      TurnAdmitted(held, turn);
      MotionStays(held, turn);
      MotionAdds(held, turn);
      StopCatches(held, turn);
      hide GuardNext;
      SendSpin(360, direction, 100, 30000);
    }

    /** Watches, and stops the motor. */
    method WatchAndStop(wanted: bool) returns (o: Outcome, seen: bool)
      requires Valid()
      modifies this`script, this`log, this`account, this`trail, this`guard,
               this`emergencyStop, this`cleanPause, this`recoveryRequested
      ensures Valid() && Calm(old(account), account) && Rest(script, old(script))
      ensures o != Cut ==> Stopped(account.sum, ScoopSpin)
      ensures o == Done && seen ==> account.sum.onStart == wanted
      ensures o == Done && !seen ==> TimeUp(old(script), script)
      ensures old(Untroubled()) && Swift(old(script), 2) ==> o == Done && Untroubled() && Used(old(script), script, 2)
      ensures old(recoveryRequested) ==> recoveryRequested
      ensures o == Cut ==> script == []
      ensures Faded(old(guard), guard)
      ensures old(Unstopped()) ==> Unstopped()
      ensures old(Unstopped()) ==> Ended(o, script, AfterSearch(old(script), wanted))
      ensures Dark(old(script)) ==> SameUnder(old(guard), guard) && Standing() == old(Standing())
      ensures o != Cut ==> |script| < |old(script)|
    {
      hide Valid, Rest, TimeUp, Swift, Used, Calm, AfterSearch, NeverStopped, Dark, Faded, SameUnder, Ended, Unstopped;
      ghost var start, held := account, guard;
      o, seen := Watch(wanted);
      if o != Cut {
        ghost var watched, before := account, guard;
        StoppedHalted(watched, ScoopSpin);
        SendStop(ScoopSpin);
        FadedTwice(held, before, guard);
        SameStill(held, before, guard);
        HaltedWaited(watched, account);
        WaitedCalm(watched, account);
        CalmTwice(start, watched, account);
      }
    }

    method Watch(wanted: bool) returns (o: Outcome, seen: bool)
      requires Valid()
      modifies this`script, this`log, this`account, this`trail, this`guard,
               this`emergencyStop, this`cleanPause, this`recoveryRequested
      ensures Valid() && Calm(old(account), account) && Rest(script, old(script))
      ensures o == Abort ==> emergencyStop
      ensures o == Done && seen ==> account.sum.onStart == wanted
      ensures o == Done && !seen ==> TimeUp(old(script), script)
      ensures old(Untroubled()) && Swift(old(script), 2) ==> o == Done && Untroubled() && Used(old(script), script, 2)
      ensures old(recoveryRequested) ==> recoveryRequested
      ensures o == Cut ==> script == []
      ensures Faded(old(guard), guard)
      ensures old(Unstopped()) ==> Unstopped()
      ensures old(Unstopped()) ==> Ended(o, script, AfterSearch(old(script), wanted))
      ensures Dark(old(script)) ==> SameUnder(old(guard), guard) && Standing() == old(Standing())
      ensures o != Cut ==> |script| < |old(script)|
    {
      hide Unstopped, BoundToStop;
      hide Pressed;
      hide Valid, Calm, Rest, TimeUp, Swift, Used, Halted, Faded, SameUnder, NeverStopped, EndsAt, EndFrom;
      seen := false;
      ghost var whole, first, untroubled, calm := script, account, Untroubled(), Unstopped();
      EndStart(whole, wanted);
      NotSame(guard);
      SwiftTwo(whole);
      RestNext(whole);
      var now;
      o, now := Poll();
      HaltedWaited(first, account);
      WaitedCalm(first, account);
      if o == Cut {
        return;
      }
      var start := now.clockUs;
      var over := false;
      while !over
        invariant Valid() && Calm(first, account)
        invariant Rest(script, whole) && whole != [] && start == whole[0].clockUs && |script| < |whole|
        invariant over && seen ==> account.sum.onStart == wanted
        invariant over && !seen ==> TimeUp(whole, script)
        invariant (old(recoveryRequested) ==> recoveryRequested) && Faded(old(guard), guard)
        invariant !over ==> (|whole| - |script|) % 2 == 1
        invariant calm ==> Unstopped()
        invariant calm && over ==> EndFrom(whole, wanted, 0) == Some(|whole| - |script| - 1)
        invariant calm && !over ==> EndFrom(whole, wanted, 0) == EndFrom(whole, wanted, |whole| - |script|)
        invariant Dark(whole) ==> SameUnder(old(guard), guard) && Standing() == old(Standing())
        invariant untroubled && Swift(whole, 2) ==> Untroubled() && |script| == |whole| - if over then 2 else 1
        decreases |script|, !over
      {
        ghost var turn, held := account, guard;
        o, over, seen := WatchTurn(wanted, start, whole);
        CalmTwice(first, turn, account);
        FadedTwice(old(guard), held, guard);
        SameStill(old(guard), held, guard);
        LastTwo(script, whole);
        if o != Done {
          return;
        }
      }
      LastTwo(script, whole);
      RestIs(script, whole);
      return Done, seen;
    }

    /** One look of a search: the time, the emergency stop, then the sensor. */
    method WatchTurn(wanted: bool, start: int, ghost whole: seq<Instant>) returns (o: Outcome, over: bool, seen: bool)
      requires Valid() && Rest(script, whole) && whole != [] && start == whole[0].clockUs && |script| < |whole|
      requires (|whole| - |script|) % 2 == 1
      modifies this`script, this`log, this`account, this`trail, this`guard,
               this`emergencyStop, this`cleanPause, this`recoveryRequested
      ensures Valid() && Calm(old(account), account)
      ensures Rest(script, whole) && |script| <= |old(script)| && (o == Cut ==> script == [])
      ensures o == Abort ==> emergencyStop
      ensures o == Done && over && seen ==> account.sum.onStart == wanted
      ensures o == Done && over && !seen ==> TimeUp(whole, script)
      ensures o == Done && !over ==> |script| == |old(script)| - 2
      ensures Swift(whole, 2) && |old(script)| == |whole| - 1 && old(Untroubled()) ==>
                o == Done && over && Untroubled() && |script| == |whole| - 2
      ensures old(recoveryRequested) ==> recoveryRequested
      ensures Faded(old(guard), guard)
      ensures old(Unstopped()) ==> Unstopped()
      ensures old(Unstopped()) ==>
                && o != Abort
                && EndFrom(whole, wanted, |whole| - |old(script)|) ==
                   if o == Cut then None else if over then Some(|whole| - |script| - 1)
                   else EndFrom(whole, wanted, |whole| - |script|)
      ensures Dark(whole) ==> SameUnder(old(guard), guard) && Standing() == old(Standing())
    {
      hide Valid, Calm, Rest, Swift, Used, TimeUp, Faded, SameUnder, NeverStopped, EndFrom, EndsAt;
      over, seen := false, false;
      ghost var first, held, k := account, guard, |whole| - |script|;
      EndStep(whole, wanted, k);
      o, over := WatchClock(wanted, start, whole);
      if o != Done || over {
        return;
      }
      ghost var timed, looked := account, guard;
      EndStep(whole, wanted, k + 1);
      o, seen := WatchSensor(wanted, whole);
      over := seen;
      CalmTwice(first, timed, account);
      FadedTwice(held, looked, guard);
      SameStill(held, looked, guard);
    }

    method WatchClock(ghost wanted: bool, start: int, ghost whole: seq<Instant>) returns (o: Outcome, over: bool)
      requires Valid() && Rest(script, whole) && whole != [] && start == whole[0].clockUs && |script| < |whole|
      requires (|whole| - |script|) % 2 == 1
      modifies this`script, this`log, this`account, this`trail, this`guard,
               this`emergencyStop, this`cleanPause, this`recoveryRequested
      ensures Valid() && Calm(old(account), account)
      ensures Rest(script, whole) && |script| == |old(script)| - if o == Cut then 0 else 1
      ensures o == Cut ==> script == []
      ensures (o == Abort ==> emergencyStop) && (o == Done && !over ==> !emergencyStop)
      ensures o == Done && over ==> TimeUp(whole, script)
      ensures o != Cut ==> (over <==> EndsAt(whole, wanted, |whole| - |old(script)|))
      ensures Swift(whole, 2) && |old(script)| == |whole| - 1 && old(Untroubled()) ==> o == Done && over && Untroubled()
      ensures old(recoveryRequested) ==> recoveryRequested
      ensures Faded(old(guard), guard)
      ensures old(Unstopped()) ==> Unstopped()
      ensures Dark(whole) ==> SameUnder(old(guard), guard) && Standing() == old(Standing())
    {
      hide Pressed;
      hide Valid, Calm, Rest, Swift, Used, Halted, Faded, SameUnder, NeverStopped;
      over := false;
      ghost var first := account;
      SwiftTwo(whole);
      RestNext(script);
      DarkRestOf(script, whole);
      NotSame(guard);
      var now;
      o, now := Poll();
      HaltedWaited(first, account);
      WaitedCalm(first, account);
      if o == Cut {
        return;
      }
      RestFirst(old(script), whole);
      RestOfRest(script, old(script), whole);
      if ElapsedMs(start, now.clockUs) >= 30000 {
        return Done, true;
      }
      if emergencyStop {
        return Abort, false;
      }
    }

    method WatchSensor(wanted: bool, ghost whole: seq<Instant>) returns (o: Outcome, seen: bool)
      requires Valid() && Rest(script, whole) && |script| < |whole| && (|whole| - |script|) % 2 == 0
      modifies this`script, this`log, this`account, this`trail, this`guard,
               this`emergencyStop, this`cleanPause, this`recoveryRequested
      ensures Valid() && Calm(old(account), account)
      ensures Rest(script, whole) && |script| == |old(script)| - if o == Cut then 0 else 1
      ensures o == Cut ==> script == []
      ensures o != Abort && (o == Done && seen ==> account.sum.onStart == wanted) && (o == Cut ==> !seen)
      ensures o == Done ==> (seen <==> EndsAt(whole, wanted, |whole| - |old(script)|))
      ensures old(recoveryRequested) ==> recoveryRequested
      ensures Faded(old(guard), guard)
      ensures old(Unstopped()) ==> Unstopped()
      ensures Dark(whole) ==> SameUnder(old(guard), guard) && Standing() == old(Standing())
    {
      hide Valid, Calm, Rest, Swift, Used, Halted, Read, Faded, SameUnder, NeverStopped;
      seen := false;
      ghost var polled, left := account, script;
      DarkRestOf(left, whole);
      if left != [] {
        RestFirst(left, whole);
      }
      var w;
      o, w := Look();
      ReadOrHaltedCalm(polled, account, w);
      ReadOnStart(polled, account, w);
      if o == Done {
        RestOfRest(script, left, whole);
        seen := w.spinStart == wanted;
      } else {
        RestEnd(script, whole);
      }
    }

    // ------------------------------------------------------------------- the calibration

    /**
     motor_calibration. It forgets an emergency stop that came before it: with nothing in its way afterwards it ends
     well all the same.
     */
    method Calibrate() returns (o: Outcome, inPlace: bool)
      requires Valid() && MayRepeat(account)
      requires Ready(guard)
      modifies this`script, this`log, this`account, this`trail, this`guard,
               this`emergencyStop, this`cleanPause, this`recoveryRequested
      ensures Valid() && account.ok == old(account).ok
      ensures Begins(account.acts, old(account).acts + CalibrationActs(inPlace))
      ensures o == Done ==> AtRest(account.sum) && !emergencyStop
      ensures o == Done ==> account.acts == old(account).acts + CalibrationActs(inPlace)
      ensures o == Done ==> KeepsStopped(old(account).sum.stops.(scoopSpin := false), account.sum.stops)
      ensures o == Abort ==> Stopped(account.sum, ScoopInOut) && Stopped(account.sum, ScoopSpin)
      ensures !old(cleanPause) && !old(recoveryRequested) && Swift(old(script), 13) ==> o == Done && Untroubled()
      ensures old(recoveryRequested) ==> recoveryRequested
      ensures o == Cut ==> script == []
      ensures (o == Done ==> Ready(guard)) && SameSide(old(guard), guard)
      ensures old(Untroubled()) ==> SeatTells(Unpressed, guard, o, old(script))
    {
      hide Valid, Begins, CalibrationActs, Swift, Used, Faded, Clear, SeatTells;
      ghost var held := guard;
      SetFlags(Standing().(stop := false));
      FadedTurns(held, guard);
      o, inPlace := CalibrationMoves();
      if o == Abort {
        ghost var left := guard;
        SendStop(ScoopSpin);
        ghost var once := guard;
        SendStop(ScoopInOut);
        FadedTurns(left, once);
        FadedTurns(once, guard);
        SeatTellsCut(Unpressed, left, guard, o, old(script));
      }
    }

    method CalibrationMoves() returns (o: Outcome, inPlace: bool)
      requires Valid() && MayRepeat(account)
      requires Ready(guard) && !emergencyStop
      modifies this`script, this`log, this`account, this`trail, this`guard,
               this`emergencyStop, this`cleanPause, this`recoveryRequested
      ensures Valid() && account.ok == old(account).ok
      ensures Begins(account.acts, old(account).acts + CalibrationActs(inPlace))
      ensures o == Done ==> AtRest(account.sum) && !emergencyStop
      ensures o == Done ==> account.acts == old(account).acts + CalibrationActs(inPlace)
      ensures o == Done ==> KeepsStopped(old(account).sum.stops.(scoopSpin := false), account.sum.stops)
      ensures old(Untroubled()) && Swift(old(script), 13) ==> o == Done && Untroubled()
      ensures old(recoveryRequested) ==> recoveryRequested
      ensures o == Cut ==> script == []
      ensures (o == Done ==> Ready(guard)) && SameSide(old(guard), guard)
      ensures old(Untroubled()) ==> SeatTells(Unpressed, guard, o, old(script))
    {
      hide Valid, Begins, CalibrationActs, SeatActs, Swift, Used, Rest, Faded, Clear, Turned, SeatTells, Admits;
      ghost var start := account.acts;
      SwiftSplit(script, 8, 5);
      o, inPlace := SeatScoop();
      CalibrationStages(start, inPlace);
      ghost var seated := guard;
      if o != Done {
        return;
      }
      SwiftSplit(script, 1, 4);
      o := CheckEmergency();
      FadedTurns(seated, guard);
      if o == Done {
        Flagging();
        FollowAdmitted(guard, Spinning(70, Reverse, 100, 10000));
        o := SpinAndCheck(70, Reverse, 100, 10000);
      }
      SeatTellsDone(Unpressed, seated, guard, o, old(script));
    }

    /** The search for the start sensor with the main cover open and the scoop in its place. */
    method SeekOrigin(searchDirection: Direction) returns (o: Outcome)
      requires Valid() && searchDirection != Stop && account.sum.openSeen && !account.sum.scoopUnderway
      requires Turned(guard)
      modifies this`script, this`log, this`account, this`trail, this`guard,
               this`emergencyStop, this`cleanPause, this`recoveryRequested
      ensures Valid() && CalmBut(old(account), account, ScoopSpin)
      ensures old(Untroubled()) && Swift(old(script), 7) ==> o == Done && Untroubled() && Used(old(script), script, 7)
      ensures old(recoveryRequested) ==> recoveryRequested
      ensures o == Cut ==> script == []
      ensures Turning(guard) && SameSide(old(guard), guard) && (o == Done ==> Turned(guard))
      ensures old(Unstopped()) ==> Ended(o, script, AfterOrigin(old(script)))
      ensures OriginTells(old(Standing()), searchDirection, old(guard), guard, old(script))
      ensures CaughtIn(old(script), 2) && !old(emergencyStop) ==> o == Cut
    {
      hide Valid, Spun, Halted, Swift, Used, CalmBut, Rest, TimeUp, OriginTells, Turning, AfterOrigin, Unstopped;
      ghost var start := account;
      var seated;
      ghost var read, begun;
      o, seated, read, begun := FindSpinOrigin(searchDirection);
      SafeSearch(start, account, read);
    }

    /** The scoop is in and its turning motor on the start sensor. */
    method SeatScoop() returns (o: Outcome, inPlace: bool)
      requires Valid() && MayRepeat(account)
      requires Ready(guard)
      modifies this`script, this`log, this`account, this`trail, this`guard,
               this`emergencyStop, this`cleanPause, this`recoveryRequested
      ensures Valid() && account.ok == old(account).ok && account.sum.openSeen
      ensures Begins(account.acts, old(account).acts + SeatActs(inPlace))
      ensures o == Done ==> AtRest(account.sum) && account.acts == old(account).acts + SeatActs(inPlace)
      ensures o == Done ==> KeepsStopped(old(account).sum.stops.(scoopSpin := false), account.sum.stops)
      ensures old(Untroubled()) && Swift(old(script), 8) ==> o == Done && Untroubled() && Used(old(script), script, 8)
      ensures old(script) != [] ==> inPlace == old(script)[0].word.scoopIn
      ensures old(recoveryRequested) ==> recoveryRequested
      ensures o == Cut ==> script == []
      ensures (o == Done ==> Turned(guard)) && SameSide(old(guard), guard)
      ensures old(Untroubled()) ==> SeatTells(Unpressed, guard, o, old(script))
    {
      hide BoundToStop, Dark, CaughtIn, IsEasy, IsQuiet, Ended;
      hide Valid, Begins, SeatActs, Swift, Used, Seen, Faded, Clear, Turned, Turning, SeatTells, OriginTells, Unstopped;
      hide AfterOrigin, Pressed;
      ghost var whole, held := script, guard;
      inPlace := false;
      ghost var start := account;
      SwiftSplit(script, 1, 7);
      SeatStages(start.acts);
      LongerIsWhole(start.acts, []);
      var w;
      o, w := Look();
      LookedMayRetract(start, account, w);
      FadedTurns(held, guard);
      if o != Done {
        SeatNot(Unpressed, guard, o, whole);
        return;
      }
      ClearTurned(guard);
      UsedIs(whole, script);
      inPlace := w.scoopIn;
      if inPlace {
        o := SeekOrigin(Forward);
        SeatNot(Unpressed, guard, o, whole);
      } else {
        ghost var ready, flags, rest := guard, Standing(), script;
        o := BringScoopIn();
        SeatFromOrigin(Unpressed, flags, ready, guard, o, whole);
        ghost var brought := guard;
        if o == Done {
          ClearTurned(guard);
          o := SeekOrigin(Reverse);
          SeatTellsDone(Unpressed, brought, guard, o, whole);
        }
      }
    }

    /** The part of the calibration for a scoop that is not in. */
    method BringScoopIn() returns (o: Outcome)
      requires Valid() && MayRepeat(account)
      requires Ready(guard)
      modifies this`script, this`log, this`account, this`trail, this`guard,
               this`emergencyStop, this`cleanPause, this`recoveryRequested
      ensures Valid() && account.ok == old(account).ok && account.sum.openSeen
      ensures Begins(account.acts, old(account).acts + SeatActs(false))
      ensures o == Done ==> AtRest(account.sum) && account.acts == old(account).acts + SeatActs(false)
      ensures o == Done ==> KeepsStopped(old(account).sum.stops.(scoopSpin := false), account.sum.stops)
      ensures old(recoveryRequested) ==> recoveryRequested
      ensures o == Cut ==> script == []
      ensures (o == Done ==> Ready(guard)) && SameSide(old(guard), guard)
      ensures SoughtTells(old(Standing()), old(guard), guard, o, old(script))
    {
      hide Valid, Begins, SeatActs, Swift, Used, Rest, Faded, Clear, Turned, Turning, OriginTells, AfterOrigin;
      hide SoughtTells;
      SeatStages(account.acts);
      ghost var held, whole, f := guard, script, Standing();
      ClearTurned(guard);
      o := SeekOrigin(Reverse);
      ghost var sought := guard;
      SoughtNow(f, held, guard, o, script, whole);
      if o != Done {
        return;
      }
      o := CheckEmergency();
      FadedTurns(sought, guard);
      if o == Done {
        o := TurnAndRetract();
      }
      SoughtDone(f, held, sought, guard, o, whole);
    }

    method TurnAndRetract() returns (o: Outcome)
      requires Valid() && MayRepeat(account)
      requires Turned(guard) && !guard.left && !emergencyStop
      modifies this`script, this`log, this`account, this`trail, this`guard,
               this`emergencyStop, this`cleanPause, this`recoveryRequested
      ensures Valid() && account.ok == old(account).ok && account.sum.openSeen
      ensures Begins(account.acts, old(account).acts + SeatActs(false))
      ensures o == Done ==> AtRest(account.sum) && account.acts == old(account).acts + SeatActs(false)
      ensures o == Done ==> KeepsStopped(old(account).sum.stops.(scoopSpin := false), account.sum.stops)
      ensures old(recoveryRequested) ==> recoveryRequested
      ensures o == Cut ==> script == []
      ensures (o == Done ==> Ready(guard)) && SameSide(old(guard), guard)
    {
      hide Valid, Begins, SeatActs, Swift, Used, Rest, Turned, Clear, Admits;
      SeatStages(account.acts);
      Flagging();
      FollowAdmitted(guard, Spinning(90, Forward, 100, 10000));
      :- SpinAndCheck(90, Forward, 100, 10000);
      o := RetractAndCheck();
    }

    /** The scoop is taken in, and the emergency stop looked at. */
    method RetractAndCheck() returns (o: Outcome)
      requires Valid() && MayRepeat(account)
      requires Ready(guard) && !emergencyStop
      modifies this`script, this`log, this`account, this`trail, this`guard,
               this`emergencyStop, this`cleanPause, this`recoveryRequested
      ensures Valid() && account.ok == old(account).ok && account.sum.openSeen
      ensures account.acts == old(account).acts + [Scooping(Reverse, 15000)]
      ensures o == Done ==> AtRest(account.sum)
      ensures o == Done ==> KeepsStopped(old(account).sum.stops, account.sum.stops)
      ensures old(recoveryRequested) ==> recoveryRequested
      ensures o == Cut ==> script == []
      ensures (o == Done ==> Ready(guard)) && SameSide(old(guard), guard)
    {
      hide Valid, Swift, Used, Rest, Steady, AfterScoopIn, Halted, Faded, Clear, Admits;
      Flagging();
      OneAdmitted(guard, Scooping(Reverse, 15000));
      ghost var start := account;
      SightStays(start);
      o := Retract(15000);
      Retracted(start, account, 15000);
      hide MayRepeat, MayRetract, Obstacle;
      if o != Done {
        return;
      }
      ghost var taken, held := account, guard;
      o := CheckEmergency();
      FadedTurns(held, guard);
      HaltedKeeps(taken, account);
    }

    /** A turn of the scoop, and a look at the emergency stop. */
    method SpinAndCheck(angle: nat, direction: Direction, speed: nat, timeout: nat) returns (o: Outcome)
      requires Valid() && timeout > 0 && account.sum.openSeen && !account.sum.scoopUnderway
      requires direction != Stop && angle != 360 && !guard.left
      requires Admits(guard, Spinning(angle, direction, speed, timeout))
      modifies this`script, this`log, this`account, this`trail, this`guard,
               this`emergencyStop, this`cleanPause, this`recoveryRequested
      ensures Valid() && account.ok == old(account).ok && Steady(old(account).sum, account.sum)
      ensures KeepsStopped(old(account).sum.stops.(scoopSpin := false), account.sum.stops)
      ensures account.acts == old(account).acts + [Spinning(angle, direction, speed, timeout)]
      ensures o == Done ==> !emergencyStop
      ensures old(Untroubled()) && Swift(old(script), 4) ==> o == Done && Untroubled() && Used(old(script), script, 4)
      ensures o == Cut ==> script == []
      ensures (old(recoveryRequested) ==> recoveryRequested) && (old(BoundToStop()) ==> BoundToStop())
      ensures (o == Done ==> Ready(guard)) && SameSide(old(guard), guard)
    {
      hide WaitTells, Valid, Swift, Used, Rest, Faded, Clear, Admits;
      SwiftSplit(script, 3, 1);
      :- Spin(angle, direction, speed, timeout);
      ghost var held := guard;
      o := CheckEmergency();
      FadedTurns(held, guard);
    }

    // ------------------------------------------------------------------ the whole scenario

    /** Everything up to the exits: the two cycles, the final retract, the calibration, the main cover closed. */
    method CleanBody() returns (o: Outcome, course: Course, resumed: bool)
      requires Valid() && account == Blank && Ready(guard) && Untroubled()
      modifies this`script, this`log, this`account, this`trail, this`guard,
               this`emergencyStop, this`cleanPause, this`recoveryRequested, this`spinAlwaysOn
      ensures Valid() && account.ok == Judged(resumed, account.ok.answered)
      ensures resumed ==> o != Done && recoveryRequested
      ensures Begins(account.acts, ScenarioActs(course))
      ensures o == Done ==>
                FourStopped(account.sum) && !spinAlwaysOn && account.acts == ScenarioActs(course)
      ensures PressedAfter(old(script), 6) ==>
                o == Abort && Leaving() && Used(old(script), script, 9) && Untouched(account.sum)
      ensures PressedAfter(old(script), 61) ==>
                o == Abort && Leaving() && Used(old(script), script, 64) && account.sum.scoopUnderway
      ensures BlockedAfter(old(script), 972) ==> resumed
      ensures UnansweredAfter(old(script), 972) ==> !account.ok.answered
      ensures o == Done ==> Ready(guard)
      ensures guard.over == (old(guard).over || resumed) && !guard.left
      ensures SeatAfter(old(script), 1989, guard, o)
      ensures o == Cut ==> script == []
    {
      hide WaitTells, Valid, Begins, ScenarioActs, OpeningActs, CycleActs, PutAwayActs;
      hide Swift, Used, PressedAfter, BlockedAfter, UnansweredAfter, Steady, KeepsStopped, Stopped, FourStopped;
      hide Clear, Judged, SeatAfter, BoundToStop, Unstopped;
      ghost var whole := script;
      SwiftSplit(script, 10, 1979);
      course, resumed := Course(false, 0, false, 0, false), false;
      PressedSplit(script, 10, 51);
      BlockedSplit(script, 10, 962);
      UnansweredSplit(script, 10, 962);
      UsedSplit(script, 10, 54);
      NotYetJudged();
      ScenarioStages(course);
      o := OpenMainCover();
      if o != Done {
        SeatNone(whole, 10, 1979, guard, o);
        return;
      }
      ghost var ready := script;
      o, course, resumed := CleanOpened();
      SeatLater(whole, ready, 10, 1979, guard, o);
    }

    /** What follows once the main cover is open. */
    method CleanOpened() returns (o: Outcome, course: Course, resumed: bool)
      requires Valid() && account.ok == Judged(false, account.ok.answered) && account.acts == OpeningActs()
      requires account.sum.openSeen && AtRest(account.sum) && Ready(guard)
      modifies this`script, this`log, this`account, this`trail, this`guard,
               this`emergencyStop, this`cleanPause, this`recoveryRequested, this`spinAlwaysOn
      ensures Valid() && account.ok == Judged(resumed, account.ok.answered)
      ensures resumed ==> o != Done && recoveryRequested
      ensures Begins(account.acts, ScenarioActs(course))
      ensures o == Done ==> FourStopped(account.sum) && !spinAlwaysOn && account.acts == ScenarioActs(course)
      ensures old(Untroubled()) && PressedAfter(old(script), 51) ==>
                o == Abort && Leaving() && Used(old(script), script, 54) && account.sum.scoopUnderway
      ensures old(Untroubled()) && BlockedAfter(old(script), 962) ==> resumed
      ensures old(Untroubled()) && UnansweredAfter(old(script), 962) ==> !account.ok.answered
      ensures o == Done ==> Ready(guard)
      ensures guard.over == (old(guard).over || resumed) && !guard.left
      ensures old(Untroubled()) ==> SeatAfter(old(script), 1979, guard, o)
      ensures o == Cut ==> script == []
    {
      hide Turning, Leaving, Requested;
      hide Valid, Begins, ScenarioActs, OpeningActs, CycleActs, PutAwayActs;
      hide Swift, Used, PressedAfter, BlockedAfter, UnansweredAfter, Steady, KeepsStopped, Stopped, FourStopped;
      hide Clear, Judged, SeatAfter, BoundToStop, Unstopped;
      ghost var whole, untroubled := script, Untroubled();
      SwiftSplit(script, 1968, 11);
      SwiftSplit(script, 1968, 4);
      SwiftSplit(script, 1972, 7);
      UsedSplit(script, 1968, 4);
      spinAlwaysOn := true;
      o, course, resumed := Cycles();
      ScenarioStages(course);
      if o != Done {
        if untroubled {
          SeatNone(whole, 1968, 11, guard, o);
        }
        return;
      }
      SwiftSplit(script, 4, 7);
      o := TurnLast();
      if o != Done {
        if untroubled {
          SeatNone(whole, 1972, 7, guard, o);
        }
        return;
      }
      ghost var turned := script;
      spinAlwaysOn := false;
      var inPlace;
      o, inPlace, resumed := PutAway();
      if untroubled {
        SeatLater(whole, turned, 1972, 7, guard, o);
      }
      course := course.(inPlace := inPlace);
      ScenarioStages(course);
    }

    /** The turn after both cycles. */
    method TurnLast() returns (o: Outcome)
      requires Valid() && account.sum.openSeen && AtRest(account.sum) && Ready(guard)
      requires account.sum.waste == Some(Reverse) && account.sum.wasteClosedSeen && Stopped(account.sum, WasteCover)
      modifies this`script, this`log, this`account, this`trail, this`guard,
               this`emergencyStop, this`cleanPause, this`recoveryRequested
      ensures Valid() && account.ok == old(account).ok && account.sum.openSeen && AtRest(account.sum)
      ensures account.sum.waste == Some(Reverse) && account.sum.wasteClosedSeen && Stopped(account.sum, WasteCover)
      ensures account.acts == old(account).acts + [Spinning(50, Forward, 100, 8000)]
      ensures (o == Done ==> Ready(guard)) && SameSide(old(guard), guard)
      ensures old(Untroubled()) && Swift(old(script), 4) ==> o == Done && Untroubled() && Used(old(script), script, 4)
      ensures o == Cut ==> script == []
    {
      hide WaitTells, Valid, Halted, Rest, Used, Swift, Faded, Clear, Admits, Steady, KeepsStopped, Stopped;
      ghost var cycled, held := account, guard;
      SwiftSplit(script, 1, 3);
      Pass();
      FadedTurns(held, guard);
      ghost var passed := account;
      PassedKeeps(cycled, passed);
      SingleAdmitted(guard, Spinning(50, Forward, 100, 8000));
      o := Spin(50, Forward, 100, 8000);
      TurnedKeeps(passed, account);
    }

    /** The two cycles. */
    method Cycles() returns (o: Outcome, course: Course, resumed: bool)
      requires Valid() && account.ok == Judged(false, account.ok.answered) && account.acts == OpeningActs()
      requires account.sum.openSeen && AtRest(account.sum) && Ready(guard)
      modifies this`script, this`log, this`account, this`trail, this`guard,
               this`emergencyStop, this`cleanPause, this`recoveryRequested
      ensures Valid() && account.ok == Judged(resumed, account.ok.answered) && account.sum.openSeen
      ensures resumed ==> o != Done && recoveryRequested
      ensures Begins(account.acts, ScenarioActs(course))
      ensures o == Done ==>
                && account.sum.waste == Some(Reverse) && account.sum.wasteClosedSeen
                && Stopped(account.sum, WasteCover) && AtRest(account.sum)
      ensures o == Done ==>
                account.acts == (OpeningActs() + CycleActs(true, course.again1, course.retries1))
                                + CycleActs(false, course.again2, course.retries2)
      ensures old(Untroubled()) && PressedAfter(old(script), 51) ==>
                o == Abort && Leaving() && Used(old(script), script, 54) && account.sum.scoopUnderway
      ensures old(Untroubled()) && BlockedAfter(old(script), 962) ==> resumed
      ensures old(Untroubled()) && UnansweredAfter(old(script), 962) ==> !account.ok.answered
      ensures o == Done ==> Ready(guard)
      ensures guard.over == (old(guard).over || resumed) && !guard.left
      ensures old(Untroubled()) && Swift(old(script), 1968) ==>
                o == Done && Untroubled() && Used(old(script), script, 1968)
      ensures o == Cut ==> script == []
    {
      hide Valid, Begins, ScenarioActs, OpeningActs, CycleActs, PutAwayActs;
      hide Swift, Used, PressedAfter, BlockedAfter, UnansweredAfter, Clear, Judged, BoundToStop, Unstopped;
      SwiftSplit(script, 984, 984);
      var again, retries;
      o, again, retries, resumed := Cycle(true);
      course := Course(again, retries, false, 0, false);
      ScenarioStages(course);
      if o != Done {
        return;
      }
      o, again, retries, resumed := Cycle(false);
      course := course.(again2 := again, retries2 := retries);
      ScenarioStages(course);
    }

    /** After both cycles: the final retract, the calibration and the closing of the main cover. */
    method PutAway() returns (o: Outcome, inPlace: bool, resumed: bool)
      requires Valid() && account.ok == Judged(false, account.ok.answered)
      requires account.sum.openSeen && AtRest(account.sum)
      requires account.sum.waste == Some(Reverse) && account.sum.wasteClosedSeen && Stopped(account.sum, WasteCover)
      requires Ready(guard)
      modifies this`script, this`log, this`account, this`trail, this`guard,
               this`emergencyStop, this`cleanPause, this`recoveryRequested
      ensures Valid() && account.ok == Judged(resumed, account.ok.answered)
      ensures resumed ==> o != Done && recoveryRequested
      ensures Begins(account.acts, old(account).acts + PutAwayActs(inPlace))
      ensures o == Done ==> FourStopped(account.sum)
      ensures o == Done ==> account.acts == old(account).acts + PutAwayActs(inPlace)
      ensures !old(account).ok.answered ==> !account.ok.answered
      ensures o == Done ==> Ready(guard)
      ensures guard.over == (old(guard).over || resumed) && !guard.left
      ensures old(Untroubled()) ==> SeatAfter(old(script), 7, guard, o)
      ensures o == Cut ==> script == []
    {
      hide WaitTells, Valid, Begins, PutAwayActs, StowActs, CalibrationActs, DriveActs, Clear, SeatAfter, BoundToStop;
      hide Unstopped, Swift, Used;
      ghost var start, whole, untroubled := account.acts, script, Untroubled();
      inPlace := false;
      o, resumed := StowScoop();
      PutAwayStages(start, inPlace);
      if o != Done {
        if untroubled {
          SeatNone(whole, 7, 0, guard, o);
        }
        return;
      }
      ghost var stowed := script;
      o, inPlace := CalibrateStowed();
      if untroubled {
        SeatFirst(whole, stowed, 7, guard, o);
      }
      PutAwayStages(start, inPlace);
      if o != Done {
        return;
      }
      ghost var calibrated := guard;
      o := CloseMainCover();
      if untroubled {
        SeatAfterDone(whole, 7, calibrated, guard, o);
      }
    }

    /** The final retract, and a turn. */
    method TakeInAndTurn() returns (o: Outcome)
      requires Valid() && MayRetract(account.sum, 25000) && Stopped(account.sum, WasteCover) && Ready(guard)
      requires Obstacle(account.sum.tof.value) ==> recoveryRequested && guard.blocked
      modifies this`script, this`log, this`account, this`trail, this`guard,
               this`emergencyStop, this`cleanPause, this`recoveryRequested
      ensures Valid() && account.ok == old(account).ok.(
                              tofClear := old(account).ok.tofClear && !Obstacle(old(account).sum.tof.value),
                              tofAbove := old(account).ok.tofAbove && old(account).sum.tof.value > TOF_LIMIT_MM)
      ensures Begins(account.acts, old(account).acts + StowActs())
      ensures o == Done ==>
                && MayRetract(account.sum, 15000) && account.sum.tof == old(account).sum.tof
                && !Obstacle(account.sum.tof.value)
                && Stopped(account.sum, ScoopInOut) && Stopped(account.sum, WasteCover)
                && account.acts == old(account).acts + StowActs()
      ensures o == Done ==> Ready(guard)
      ensures guard.over == (old(guard).over || Obstacle(old(account).sum.tof.value)) && !guard.left
      ensures old(Untroubled()) && Swift(old(script), 6) ==> o == Done && Untroubled() && Used(old(script), script, 6)
      ensures o == Cut ==> script == []
      ensures (old(recoveryRequested) ==> recoveryRequested) && (old(BoundToStop()) ==> BoundToStop())
    {
      hide WaitTells;
      hide BoundToStop, Unstopped, Requested, AboveAhead, Steady, AfterScoopIn, KeepsStopped, MayRetract, Stopped;
      hide Valid, Begins, StowActs, Swift, Used, Obstacle, Admits, Clear;
      SwiftSplit(script, 3, 3);
      SingleAdmitted(guard, Scooping(Reverse, 25000));
      StowStages(account.acts);
      ghost var start := account;
      o := Retract(25000);
      if o != Done {
        return;
      }
      ghost var taken := account;
      StowedOnce(start, taken);
      SingleAdmitted(guard, Spinning(0, Reverse, 100, 8000));
      o := Spin(0, Reverse, 100, 8000);
      StowedTwice(start, taken, account);
    }

    /** The distance, the final retract, and a turn. */
    method StowScoop() returns (o: Outcome, resumed: bool)
      requires Valid() && account.ok == Judged(false, account.ok.answered)
      requires account.sum.openSeen && AtRest(account.sum)
      requires account.sum.waste == Some(Reverse) && account.sum.wasteClosedSeen && Stopped(account.sum, WasteCover)
      requires Ready(guard)
      modifies this`script, this`log, this`account, this`trail, this`guard,
               this`emergencyStop, this`cleanPause, this`recoveryRequested
      ensures Valid() && account.ok == Judged(resumed, account.ok.answered)
      ensures resumed ==> o != Done && recoveryRequested
      ensures Begins(account.acts, old(account).acts + StowActs())
      ensures o == Done ==>
                && MayRepeat(account) && Stopped(account.sum, ScoopInOut) && Stopped(account.sum, WasteCover)
                && account.acts == old(account).acts + StowActs()
      ensures !old(account).ok.answered ==> !account.ok.answered
      ensures o == Done ==> Ready(guard)
      ensures guard.over == (old(guard).over || resumed) && !guard.left
      ensures old(Untroubled()) && Swift(old(script), 7) ==>
                o == Done && Untroubled() && Used(old(script), script, 7)
      ensures o == Cut ==> script == []
    {
      hide Valid, Begins, StowActs, Resumes, Pressed, Faded, Clear, CalmButTof, Distance, KeepsStopped, Stopped;
      hide Swift, Used;
      hide BlockedAfter, UnansweredAfter, BoundToStop, Unstopped, Requested;
      SwiftSplit(script, 1, 6);
      resumed := false;
      ghost var ready, held := account, guard;
      StowStages(ready.acts);
      o, resumed := CheckTofPause();
      FadedTurns(held, guard);
      CheckedKeeps(ready, account);
      if o != Done {
        return;
      }
      o := TakeInAndTurn();
    }

    method CalibrateStowed() returns (o: Outcome, inPlace: bool)
      requires Valid() && MayRepeat(account) && Ready(guard)
      requires Stopped(account.sum, ScoopInOut) && Stopped(account.sum, WasteCover)
      modifies this`script, this`log, this`account, this`trail, this`guard,
               this`emergencyStop, this`cleanPause, this`recoveryRequested
      ensures Valid() && account.ok == old(account).ok
      ensures Begins(account.acts, old(account).acts + CalibrationActs(inPlace))
      ensures o == Done ==>
                && AtRest(account.sum) && Stopped(account.sum, ScoopInOut) && Stopped(account.sum, WasteCover)
                && account.acts == old(account).acts + CalibrationActs(inPlace)
      ensures (o == Done ==> Ready(guard)) && SameSide(old(guard), guard)
      ensures old(Untroubled()) ==> SeatTells(Unpressed, guard, o, old(script))
      ensures o == Cut ==> script == []
    {
      hide Valid, Begins, CalibrationActs, Clear, SeatTells;
      o, inPlace := Calibrate();
    }

    method CloseMainCover() returns (o: Outcome)
      requires Valid() && AtRest(account.sum) && Ready(guard)
      modifies this`script, this`log, this`account, this`trail, this`guard,
               this`emergencyStop, this`cleanPause, this`recoveryRequested
      ensures Valid() && account.ok == old(account).ok
      ensures KeepsStopped(old(account).sum.stops.(mainCover := false), account.sum.stops)
      ensures o == Done ==> Stopped(account.sum, Plate) && Stopped(account.sum, MainCover)
      ensures account.acts == old(account).acts + DriveActs(Reverse, 100)
      ensures (o == Done ==> Ready(guard)) && SameSide(old(guard), guard)
      ensures o == Cut ==> script == []
      ensures CoverTells(old(Standing()), old(script), 10000, Close, o, script, Standing())
    {
      hide WaitTells, GoneBy, CoverTells, BoundToStop, Requested, Swift, Halted;
      hide Valid, DriveActs, Swift, Used, Ticking, ArrivedWithin, PressedTwice, Over, Paused, Steady, LeavesAtOnce;
      hide Rest, Faded, Clear;
      DriveMainCover(Reverse, 100);
      FullDrive(Reverse);
      ghost var driven, left, standing := guard, script, Standing();
      o := WaitMotor(MainCover, 10000, Close);
      FadedTurns(driven, guard);
      CoverWaits(old(Standing()), old(script), left, standing, 10000, Close, o, script, Standing());
      if o != Done {
        return;
      }
      ghost var arrived := guard;
      SendStop(MainCover);
      ghost var once := guard;
      SendStop(Plate);
      FadedTurns(arrived, once);
      FadedTurns(once, guard);
    }

    // ------------------------------------------------------------- the exits

    /**
     do_clean up to the point where the recovery may take over. However it goes, the interlocks hold of the whole
     log and its acts begin those of a scenario. Every retract had a clear distance if and only if no press resumed
     the scenario over an obstacle, and a distance above the limit if and only if, besides, every check was answered.
     A press resumed it there exactly if the log has the retract right after the pause that the obstacle made. At no
     point of the log has anything gone out under the stop, the request or the pause but what MayFollow lists.
     A success ends with plate, main cover, scoop and waste cover stopped; the exit stops all five motors.
     */
    method CleanToExit() returns (o: Outcome, recovery: bool, course: Course, resumed: bool)
      requires Valid() && log == [Flagged(Standing())]
      modifies this
      ensures Valid() && Interlocked(log) && (o == Cut ==> script == [])
      ensures recovery ==> o == Abort
      ensures ActsOf(log) <= ScenarioActs(course)
      ensures o == Done ==> ActsOf(log) == ScenarioActs(course)
      ensures Holds(TofClear, log) <==> !resumed
      ensures Holds(TofAbove, log) <==> !resumed && Holds(Answered, log)
      ensures resumed ==> o == Cut || recovery
      ensures o == Done ==> FourStopped(Summarize(log, |log|))
      ensures o == Abort ==> AllStopped(Summarize(log, |log|))
      ensures Orderly(log) && (resumed <==> ResumedOver(log))
      ensures SeatAfter(old(script), 1989, GuardOf(log), o)
      ensures guard.over == resumed && (o == Abort ==> Exited(guard)) && (o != Abort ==> Left !in log)
      ensures o != Cut ==> !cleanRunning && !cleanPause && !recoveryRequested && !spinAlwaysOn
      ensures VerdictOn(log) == Judged(resumed, Holds(Answered, log))
      ensures leftAt == |log| && leaving == account && account == AccountOf(log)
      ensures account.ok == Judged(resumed, account.ok.answered) && account.acts <= ScenarioActs(course)
      ensures PressedAfter(old(script), 6) ==>
                recovery && Used(old(script), script, 9) && Untouched(account.sum) && !emergencyStop
      ensures PressedAfter(old(script), 61) ==>
                recovery && Used(old(script), script, 64) && account.sum.scoopUnderway && !emergencyStop
      ensures BlockedAfter(old(script), 972) ==> resumed
      ensures UnansweredAfter(old(script), 972) ==> !Holds(Answered, log)
    {
      hide ScenarioActs, Swift, Used, PressedAfter, BlockedAfter, UnansweredAfter, Recorded, Judged;
      hide AllStopped, FourStopped, Valid, Clear, Orderly, ResumedOver, SeatAfter, GuardOf;
      hide Interlocked, Holds, ActsOf, Summarize, AccountOf, VerdictOn, Untouched;
      BeginCleaning();
      o, recovery, course, resumed := RunScenario();
      MarkExit();
      AccountTells(log, account, resumed);
    }

    /** do_clean starts with all its flags put back, an emergency stop included. */
    method BeginCleaning()
      requires Valid() && log == [Flagged(Standing())]
      modifies this`log, this`account, this`trail, this`guard, this`emergencyStop, this`cleanPause,
               this`recoveryRequested, this`cleanRunning, this`spinAlwaysOn
      ensures Valid() && account == Blank && Untroubled() && cleanRunning && Ready(guard) && !guard.over
    {
      hide Kept, Marked;
      KeptFirst(log, account, trail, guard, Standing());
      hide Valid, Faded, Clear;
      ghost var held := guard;
      spinAlwaysOn, cleanRunning := false, true;
      SetFlags(Unpressed);
      FadedTurns(held, guard);
    }

    ghost method MarkExit()
      requires Valid()
      modifies this`leftAt, this`leaving, this`took
      ensures Valid() && leftAt == |log| && leaving == account && account == AccountOf(log)
      ensures guard == GuardOf(log) && Orderly(log) && guard.over == ResumedOver(log) && guard.left == HasLeft(log)
    {
      hide Kept, Marked, AccountOf;
      KeptMeans(log, account, trail, guard, Standing());
      MarkedHere(log, trail);
      leftAt, leaving, took := |log|, account, false;
    }

    /** The scenario and its exit, told by the account. */
    method RunScenario() returns (o: Outcome, recovery: bool, course: Course, resumed: bool)
      requires Valid() && account == Blank && Untroubled() && Ready(guard) && !guard.over
      modifies this`script, this`log, this`account, this`trail, this`guard,
               this`emergencyStop, this`cleanPause, this`recoveryRequested, this`spinAlwaysOn, this`cleanRunning
      ensures Valid() && (o == Cut ==> script == []) && (recovery ==> o == Abort)
      ensures account.acts <= ScenarioActs(course) && (o == Done ==> account.acts == ScenarioActs(course))
      ensures account.ok == Judged(resumed, account.ok.answered) && (resumed ==> o == Cut || recovery)
      ensures o == Done ==> FourStopped(account.sum)
      ensures o == Abort ==> AllStopped(account.sum) && guard.left && Clear(guard)
      ensures guard.over == resumed && SeatAfter(old(script), 1989, guard, o) && (o != Abort ==> !guard.left)
      ensures o != Cut ==> !cleanRunning && !cleanPause && !recoveryRequested && !spinAlwaysOn
      ensures PressedAfter(old(script), 6) ==>
                recovery && Used(old(script), script, 9) && Untouched(account.sum) && !emergencyStop
      ensures PressedAfter(old(script), 61) ==>
                recovery && Used(old(script), script, 64) && account.sum.scoopUnderway && !emergencyStop
      ensures BlockedAfter(old(script), 972) ==> resumed
      ensures UnansweredAfter(old(script), 972) ==> !account.ok.answered
    {
      hide Valid, ScenarioActs, Swift, Used, PressedAfter, BlockedAfter, UnansweredAfter, Judged, Clear, SeatAfter;
      hide Faded;
      ghost var whole := script;
      recovery := false;
      o, course, resumed := CleanBody();
      ghost var ended := guard;
      if o == Done {
        cleanRunning := false;
        SetFlags(Standing().(paused := false, asked := false));
        FadedTurns(ended, guard);
      } else if o == Abort {
        recovery := LeaveScenario();
      }
      SeatAfterCut(whole, 1989, ended, guard, o);
    }

    /** estop_exit, up to the choice between the recovery and the error. */
    method LeaveScenario() returns (recovery: bool)
      requires Valid()
      modifies this`log, this`account, this`trail, this`guard, this`emergencyStop,
               this`cleanRunning, this`cleanPause, this`recoveryRequested, this`spinAlwaysOn
      ensures Valid() && Halted(old(account), account) && AllStopped(account.sum)
      ensures recovery == old(recoveryRequested) && emergencyStop == old(emergencyStop)
      ensures guard.left && Clear(guard) && guard.over == old(guard).over
      ensures !cleanRunning && !cleanPause && !recoveryRequested && !spinAlwaysOn
    {
      hide Valid, Faded, Clear;
      spinAlwaysOn := false;
      recovery := recoveryRequested;
      cleanRunning := false;
      MarkLeft();
      ghost var held := guard;
      StopForExit();
      FadedTurns(held, guard);
    }

    /**
     The whole of do_clean. Without the recovery the interlocks hold of the whole log. Once the recovery takes over,
     they hold of the log up to where the scenario was left, and the verdict on the whole log is the one that
     RecoveryVerdict tells from there and from what the recovery met, whichever exit it takes.
     */
    method DoClean()
      returns (o: Outcome, recovered: bool, course: Course, resumed: bool, ghost found: Findings)
      requires Valid() && log == [Flagged(Standing())]
      modifies this
      ensures Valid() && (o == Cut ==> script == []) && (o != Cut ==> !cleanRunning)
      ensures !recovered ==> Interlocked(log) && (Holds(TofClear, log) <==> !resumed)
      ensures !recovered ==> (Holds(TofAbove, log) <==> !resumed && Holds(Answered, log))
      ensures Orderly(log) && (resumed <==> ResumedOver(log))
      ensures !recovered ==> SeatAfter(old(script), 1989, GuardOf(log), o)
      ensures !recovered ==> ActsOf(log) <= ScenarioActs(course)
      ensures o == Done && !recovered ==>
                !resumed && ActsOf(log) == ScenarioActs(course) && FourStopped(Summarize(log, |log|))
      ensures recovered ==> LeftWith(log, leftAt, resumed, course)
      ensures recovered ==> RecoveredFrom(log, leftAt, resumed, found)
      ensures recovered && found.retract.Some? ==> leftAt <= tookAt && RetractedAt(log, tookAt, found)
      ensures recovered ==> BeginsRecovery(ActsOf(log), ActsOf(log[..leftAt]))
      ensures o == Done && recovered ==> EndsRecovery(ActsOf(log), ActsOf(log[..leftAt]))
      ensures o == Abort || (recovered && o != Cut) ==> AllStopped(Summarize(log, |log|))
      ensures leftAt <= |log| && AsScripted(old(script), Summarize(log, leftAt), recovered, resumed, found)
    {
      hide ScenarioActs, Swift, PressedAfter, BlockedAfter, Recorded, Judged, AllStopped, FourStopped, Clear;
      hide Orderly, ResumedOver, SeatAfter, GuardOf, UnansweredAfter, Interlocked, Holds, ActsOf, Summarize;
      hide AccountOf, VerdictOn, Untouched;
      hide RecoveryVerdict, FoundFrom;
      hide RecoveryActs, Used;
      ghost var whole := script;
      found := NothingFound;
      o, recovered, course, resumed := CleanToExit();
      AccountMeans(log);
      if !recovered {
        NotRecovered(whole, script, account.sum, resumed);
      } else {
        ghost var behind := script;
        var closed, scoopIn, coverOpen;
        o, closed, scoopIn, coverOpen, found := Recover();
        RecordedMeans(trail, log);
        RecordedBefore(trail, log, leftAt);
        if took {
          RecordedBefore(trail, log, tookAt);
          AccountMeans(log[..tookAt]);
          SummarizeBefore(log, tookAt, tookAt);
        }
        AccountMeans(log);
        AccountTells(log[..leftAt], leaving, resumed);
        SummarizeBefore(log, leftAt, leftAt);
        OverMeans(log, account, trail, guard, Standing());
        BeginsMeans(account.acts, leaving.acts, closed, scoopIn, coverOpen);
        ScriptedOn(whole, behind, leaving.sum, resumed, found);
      }
    }

    /** do_clean_resume_recovery; both of its exits stop all five motors. */
    method Recover() returns (o: Outcome, closed: bool, scoopIn: bool, coverOpen: bool, ghost found: Findings)
      requires Valid() && Exited(guard)
      modifies this`script, this`log, this`account, this`trail, this`guard,
               this`emergencyStop, this`cleanPause, this`recoveryRequested, this`cleanRunning,
               this`took, this`tookAt, this`taking
      ensures Valid() && (o == Cut ==> script == [])
      ensures o != Cut ==> AllStopped(account.sum) && !cleanRunning && !cleanPause && !recoveryRequested
      ensures o == Done ==> !emergencyStop
      ensures account.ok == RecoveryVerdict(old(account).ok, old(account).sum, found)
      ensures FoundFrom(old(account).sum, found)
      ensures Begins(account.acts, old(account).acts + RecoveryActs(closed, scoopIn, coverOpen))
      ensures o == Done ==> account.acts == old(account).acts + RecoveryActs(closed, scoopIn, coverOpen)
      ensures old(script) != [] ==> found.looked == Some(old(script)[0].word)
      ensures FoundClosed(found) && found.search.Some? ==>
                |old(script)| > 2 && found.search == Some(old(script)[2].word)
      ensures found.retract.Some? ==> took && found.retract == Some(taking.sum)
      ensures !old(StopRequested()) && Swift(old(script), 14) ==> found.retract.Some?
      ensures guard.over == old(guard).over
    {
      hide Valid, Begins, RecoveryActs, Recovering, Swift, RecoveryVerdict, FoundFrom, Faded, Clear;
      ghost var exit, held := account, guard;
      SetFlags(Standing().(paused := false));
      FadedTurns(held, guard);
      o, closed, scoopIn, coverOpen, found := RecoveryMoves();
      RecoveringMeans(exit, account, found);
      if o == Cut {
        return;
      }
      EndRecovery(o == Done);
    }

    /** Both exits of the recovery: the flags are put back, the stop only by the good end, and all motors stopped. */
    method EndRecovery(good: bool)
      requires Valid()
      modifies this`log, this`account, this`trail, this`guard,
               this`emergencyStop, this`cleanPause, this`recoveryRequested, this`cleanRunning
      ensures Valid() && Halted(old(account), account) && AllStopped(account.sum)
      ensures !cleanRunning && !cleanPause && !recoveryRequested
      ensures emergencyStop == (old(emergencyStop) && !good)
      ensures guard.over == old(guard).over
    {
      hide Valid, Faded, Clear, AllStopped;
      ghost var moved := guard;
      cleanRunning := false;
      SetFlags(Flags(emergencyStop && !good, false, false));
      FadedTurns(moved, guard);
      ghost var put := guard;
      if good {
        StopForPause();
      } else {
        StopForExit();
      }
      FadedTurns(put, guard);
    }

    method RecoveryMoves() returns (o: Outcome, closed: bool, scoopIn: bool, coverOpen: bool, ghost f: Findings)
      requires Valid() && Exited(guard)
      modifies this`script, this`log, this`account, this`trail, this`guard,
               this`emergencyStop, this`cleanPause, this`recoveryRequested,
               this`took, this`tookAt, this`taking
      ensures Valid() && (o == Cut ==> script == []) && Recovering(old(account), account, f)
      ensures Begins(account.acts, old(account).acts + RecoveryActs(closed, scoopIn, coverOpen))
      ensures o == Done ==> account.acts == old(account).acts + RecoveryActs(closed, scoopIn, coverOpen)
      ensures old(script) != [] ==> f.looked == Some(old(script)[0].word)
      ensures FoundClosed(f) && f.search.Some? ==> |old(script)| > 2 && f.search == Some(old(script)[2].word)
      ensures f.retract.Some? ==> took && f.retract == Some(taking.sum)
      ensures old(Untroubled()) && Swift(old(script), 14) ==> f.retract.Some?
      ensures guard.over == old(guard).over
    {
      hide Valid, Begins, RecoveryActs, Recovering, Decided, Swift, Used, Clear;
      ghost var exit := account;
      closed, scoopIn, coverOpen := false, false, false;
      SwiftSplit(script, 1, 13);
      ghost var whole := script;
      o, closed, f := RecoverWasteCover();
      if closed {
        UsedWords(whole, script);
      }
      RecoveryStages(exit.acts, closed, scoopIn, coverOpen, f);
      if o != Done {
        return;
      }
      o, f := CalibrateForRecovery(exit, f);
      if o != Done {
        return;
      }
      o, scoopIn, coverOpen := PutInPlace(exit, f);
      RecoveryStages(exit.acts, closed, scoopIn, coverOpen, f);
    }

    /**
     The recovery closes the waste cover first, wherever the scoop was left. That keeps the closing rule if and
     only if the cover was read closed already, or the scoop was last sent out.
     */
    method RecoverWasteCover() returns (o: Outcome, closed: bool, ghost f: Findings)
      requires Valid() && Exited(guard)
      modifies this`script, this`log, this`account, this`trail, this`guard,
               this`emergencyStop, this`cleanPause, this`recoveryRequested
      ensures Valid() && (o == Cut ==> script == [])
      ensures Recovering(old(account), account, f) && f.search.None? && f.retract.None?
      ensures account.ok.closeOverOut == (old(account).ok.closeOverOut
                                          && (FoundNotClosed(f) ==> old(account).sum.scoop == Some(Forward)))
      ensures o == Done ==> f.looked.Some? && (closed <==> FoundClosed(f))
      ensures o == Done && !closed ==> !account.sum.wasteUnderway
      ensures account.acts == old(account).acts + CoverActs(f) && (FoundNotClosed(f) ==> !closed)
      ensures old(script) != [] ==> f.looked == Some(old(script)[0].word)
      ensures (o == Done ==> Exited(guard)) && guard.over == old(guard).over
      ensures closed ==> Used(old(script), script, 1)
      ensures old(Untroubled()) && Swift(old(script), 1) ==> o == Done && Untroubled() && Used(old(script), script, 1)
    {
      hide WaitTells, Valid, Recovering, Swift, Used, Read, Halted, Seen, Waited, Rest, Faded, Clear;
      closed, f := false, NothingFound;
      ghost var exit, held := account, guard;
      NoMore(exit.acts);
      var w;
      o, w := Look();
      FadedTurns(held, guard);
      if o == Cut {
        HaltedKeeps(exit, account);
        NothingDone(exit, account);
        return;
      }
      ReadKeeps(exit, account, w);
      f := Findings(Some(w), None, None);
      closed := w.wasteClose;
      if closed {
        FoundShut(exit, account, w);
      } else {
        FoundOpen(exit, account, w);
        o := ShutWaste(exit, f);
      }
    }

    /** The waste cover is sent shut and waited for. */
    method ShutWaste(ghost exit: Account, ghost f: Findings) returns (o: Outcome)
      requires Valid() && Exited(guard) && FoundNotClosed(f) && f.search.None? && f.retract.None?
      requires Recovering(exit, AfterWaste(account, Reverse, 15000), f)
      modifies this`script, this`log, this`account, this`trail, this`guard,
               this`emergencyStop, this`cleanPause, this`recoveryRequested
      ensures Valid() && (o == Cut ==> script == []) && Recovering(exit, account, f)
      ensures account.acts == old(account).acts + [Wasting(Reverse, 15000)]
      ensures account.ok.closeOverOut == (old(account).ok.closeOverOut && old(account).sum.scoop == Some(Forward))
      ensures o == Done ==> !account.sum.wasteUnderway
      ensures (o == Done ==> Exited(guard)) && guard.over == old(guard).over
      ensures WaitTells(Wait(old(Standing()), WasteCover, 15000, Close, old(script)), o, script, Standing())
    {
      hide WaitTells;
      hide Valid, Recovering, Swift, Used, Halted, Paused, Ticking, ArrivedWithin, PressedTwice, Calm, Faded, Clear;
      hide Admits;
      SingleAdmitted(guard, Wasting(Reverse, 15000));
      MotionStays(guard, Wasting(Reverse, 15000));
      hide GuardNext;
      SendWaste(Reverse, 15000);
      ghost var sent, under := account, guard;
      o := WaitMotor(WasteCover, 15000, Close);
      FadedTurns(under, guard);
      WaitedCalm(sent, account);
      CalmMeans(sent, account);
      CalmKeeps(sent, account);
      CalmRecovering(exit, sent, account, f);
      if o == Done {
        ghost var waited, arrived := account, guard;
        SendStop(WasteCover);
        FadedTurns(arrived, guard);
        StoppedHalted(waited, WasteCover);
        HaltedRecovering(exit, waited, account, f);
      }
    }

    /**
     motor_calibration_recovery. It takes the scoop in without a distance check of its own, so the rule about
     checks survives it only if one was made since the scoop was last sent out.
     */
    method CalibrateForRecovery(ghost exit: Account, ghost f0: Findings) returns (o: Outcome, ghost f: Findings)
      requires Valid() && Exited(guard) && Recovering(exit, account, f0)
      requires f0.looked.Some? && f0.search.None? && f0.retract.None?
      requires FoundNotClosed(f0) ==> !account.sum.wasteUnderway
      modifies this`script, this`log, this`account, this`trail, this`guard,
               this`emergencyStop, this`cleanPause, this`recoveryRequested,
               this`took, this`tookAt, this`taking
      ensures Valid() && (o == Cut ==> script == [])
      ensures Recovering(exit, account, f) && f.looked == f0.looked
      ensures f.search.Some? ==> |old(script)| > 1 && f.search == Some(old(script)[1].word)
      ensures f.retract.Some? ==> took && f.retract == Some(taking.sum)
      ensures Begins(account.acts, old(account).acts + RecoveryCalibrationActs())
      ensures o == Done ==> Decided(exit, account, f) && f.retract.Some?
      ensures o == Done ==> account.acts == old(account).acts + RecoveryCalibrationActs()
      ensures (o == Done ==> Exited(guard)) && guard.over == old(guard).over
      ensures o == Abort ==> Stopped(account.sum, ScoopSpin) && Stopped(account.sum, ScoopInOut)
      ensures !old(cleanPause) && !old(recoveryRequested) && Swift(old(script), 13) ==> f.retract.Some?
    {
      hide Valid, Recovering, Swift, Begins, RecoveryCalibrationActs, Halted, Faded, Clear;
      ghost var held := guard;
      SetFlags(Standing().(stop := false));
      FadedTurns(held, guard);
      o, f := RecoveryCalibrationMoves(exit, f0);
      if o == Abort {
        ghost var left, moved := account, guard;
        SendStop(ScoopSpin);
        FadedTurns(moved, guard);
        StoppedHalted(left, ScoopSpin);
        HaltedRecovering(exit, left, account, f);
        ghost var once, spun := account, guard;
        SendStop(ScoopInOut);
        FadedTurns(spun, guard);
        StoppedHalted(once, ScoopInOut);
        HaltedRecovering(exit, once, account, f);
      }
    }

    method RecoveryCalibrationMoves(ghost exit: Account, ghost f0: Findings) returns (o: Outcome, ghost f: Findings)
      requires Valid() && Exited(guard) && Recovering(exit, account, f0)
      requires f0.looked.Some? && f0.search.None? && f0.retract.None?
      requires FoundNotClosed(f0) ==> !account.sum.wasteUnderway
      modifies this`script, this`log, this`account, this`trail, this`guard,
               this`emergencyStop, this`cleanPause, this`recoveryRequested,
               this`took, this`tookAt, this`taking
      ensures Valid() && (o == Cut ==> script == [])
      ensures Recovering(exit, account, f) && f.looked == f0.looked
      ensures f.search.Some? ==> |old(script)| > 1 && f.search == Some(old(script)[1].word)
      ensures f.retract.Some? ==> took && f.retract == Some(taking.sum)
      ensures Begins(account.acts, old(account).acts + RecoveryCalibrationActs())
      ensures o == Done ==> Decided(exit, account, f) && f.retract.Some?
      ensures o == Done ==> account.acts == old(account).acts + RecoveryCalibrationActs()
      ensures old(Untroubled()) && Swift(old(script), 13) ==> f.retract.Some?
      ensures (o == Done ==> Exited(guard)) && guard.over == old(guard).over
    {
      hide WaitTells, Valid, Recovering, Swift, Used, Begins, RecoveryCalibrationActs, Clear;
      RecoveryCalibrationStages(account.acts);
      o, f := TurnUp(exit, f0);
      if o != Done {
        return;
      }
      o, f := RecoverScoop(exit, f);
      if o != Done {
        return;
      }
      o := TurnDownAgain(exit, f);
    }

    /** The search for the start sensor, and a turn up. */
    method TurnUp(ghost exit: Account, ghost f0: Findings) returns (o: Outcome, ghost f: Findings)
      requires Valid() && Exited(guard) && Recovering(exit, account, f0)
      requires f0.looked.Some? && f0.search.None? && f0.retract.None?
      requires FoundNotClosed(f0) ==> !account.sum.wasteUnderway
      modifies this`script, this`log, this`account, this`trail, this`guard,
               this`emergencyStop, this`cleanPause, this`recoveryRequested
      ensures Valid() && (o == Cut ==> script == [])
      ensures Recovering(exit, account, f) && f.looked == f0.looked && f.retract.None?
      ensures f.search.Some? ==> |old(script)| > 1 && f.search == Some(old(script)[1].word)
      ensures account.acts == old(account).acts
              || account.acts == old(account).acts + [Spinning(75, Forward, 100, 10000)]
      ensures o == Done ==> Decided(exit, account, f) && (FoundNotClosed(f) ==> !account.sum.wasteUnderway)
      ensures o == Done ==> account.acts == old(account).acts + [Spinning(75, Forward, 100, 10000)]
      ensures old(Untroubled()) && Swift(old(script), 13) ==> o == Done && Untroubled()
      ensures (o == Done ==> Exited(guard)) && guard.over == old(guard).over
    {
      hide WaitTells, BoundToStop, LeavesAtOnce, Ended;
      hide Valid, Recovering, Swift, Used, Spun, Halted, Rest, TimeUp, Calm, Faded, Clear, Turned, Turning, Admits;
      hide OriginTells, AfterOrigin, Unstopped;
      ClearTurned(guard);
      ghost var start := account;
      SwiftSplit(script, 7, 6);
      var seated;
      ghost var read, begun;
      o, seated, read, begun := FindSpinOrigin(Reverse);
      SearchRecovering(exit, start, account, f0, read);
      SpunKeeps(start, account, read);
      f := f0.(search := read);
      if o != Done {
        return;
      }
      SwiftSplit(script, 1, 5);
      SoughtTurned(guard);
      ghost var sought := guard;
      o := PassEmergency(exit, f);
      FadedTurns(sought, guard);
      if o != Done {
        return;
      }
      SwiftSplit(script, 1, 4);
      ghost var checked := guard;
      PassDecided(exit, f);
      FadedTurns(checked, guard);
      SwiftSplit(script, 3, 1);
      FollowAdmitted(guard, Spinning(75, Forward, 100, 10000));
      o := SpinAndStop(75, Forward, exit, f);
      if o != Done {
        return;
      }
      ghost var turned := guard;
      o := PassEmergency(exit, f);
      FadedTurns(turned, guard);
    }

    /** A look at the emergency stop during the recovery. */
    method PassEmergency(ghost exit: Account, ghost f: Findings) returns (o: Outcome)
      requires Valid() && Decided(exit, account, f)
      modifies this`script, this`log, this`account, this`trail, this`guard,
               this`emergencyStop, this`cleanPause, this`recoveryRequested
      ensures Valid() && (o == Cut ==> script == []) && Decided(exit, account, f)
      ensures Faded(old(guard), guard)
      ensures account.acts == old(account).acts && Steady(old(account).sum, account.sum)
      ensures old(Untroubled()) && Swift(old(script), 1) ==> o == Done && Untroubled() && Used(old(script), script, 1)
    {
      hide Valid, Faded, Decided, Swift, Used, Halted, Rest, Calm;
      ghost var start := account;
      o := CheckEmergency();
      HaltedWaited(start, account);
      WaitedCalm(start, account);
      CalmMeans(start, account);
      CalmKeeps(start, account);
      CalmDecided(exit, start, account, f);
    }

    /** A delay during the recovery. */
    method PassDecided(ghost exit: Account, ghost f: Findings)
      requires Valid() && Decided(exit, account, f)
      modifies this`script, this`log, this`account, this`trail, this`guard,
               this`emergencyStop, this`cleanPause, this`recoveryRequested
      ensures Valid() && Decided(exit, account, f) && (old(script) == [] ==> script == [])
      ensures Faded(old(guard), guard)
      ensures account.acts == old(account).acts && Steady(old(account).sum, account.sum)
      ensures old(Untroubled()) && Swift(old(script), 1) ==> Untroubled() && Used(old(script), script, 1)
    {
      hide Valid, Faded, Decided, Swift, Used, Halted, Rest, Calm;
      ghost var start := account;
      Pass();
      HaltedWaited(start, account);
      WaitedCalm(start, account);
      CalmMeans(start, account);
      CalmKeeps(start, account);
      CalmDecided(exit, start, account, f);
    }

    method SpinAndStop(angle: nat, direction: Direction, ghost exit: Account, ghost f: Findings) returns (o: Outcome)
      requires Valid() && direction != Stop && angle != 360 && Decided(exit, account, f)
      requires guard.left && Admits(guard, Spinning(angle, direction, 100, 10000))
      modifies this`script, this`log, this`account, this`trail, this`guard,
               this`emergencyStop, this`cleanPause, this`recoveryRequested
      ensures Valid() && (o == Cut ==> script == []) && Decided(exit, account, f)
      ensures account.acts == old(account).acts + [Spinning(angle, direction, 100, 10000)]
      ensures Steady(old(account).sum, account.sum)
      ensures (o == Done ==> Exited(guard)) && guard.over == old(guard).over
      ensures old(Untroubled()) && Swift(old(script), 3) ==> o == Done && Untroubled() && Used(old(script), script, 3)
      ensures WaitTells(Wait(old(Standing()), ScoopSpin, 10000, Middle, old(script)), o, script, Standing())
    {
      hide WaitTells;
      hide Valid, Decided, Swift, Used, Halted, Paused, Ticking, ArrivedWithin, PressedTwice, Calm, Over, Faded;
      hide Clear, Admits;
      MotionStays(guard, Spinning(angle, direction, 100, 10000));
      hide GuardNext;
      ghost var start := account;
      SpinDecided(exit, account, f, Spinning(angle, direction, 100, 10000));
      SendSpin(angle, direction, 100, 10000);
      ghost var sent, under := account, guard;
      o := WaitMotor(ScoopSpin, 10000, Middle);
      FadedTurns(under, guard);
      WaitedCalm(sent, account);
      CalmMeans(sent, account);
      CalmKeeps(sent, account);
      CalmDecided(exit, sent, account, f);
      if o == Done {
        ghost var waited, arrived := account, guard;
        SendStop(ScoopSpin);
        FadedTurns(arrived, guard);
        StoppedHalted(waited, ScoopSpin);
        HaltedWaited(waited, account);
        WaitedCalm(waited, account);
        CalmDecided(exit, waited, account, f);
      }
    }

    /** The command that takes the scoop in; the first one in a recovery is marked. */
    method TakeScoopIn(ghost first: bool)
      requires Valid() && Admits(guard, Scooping(Reverse, 15000))
      modifies this`log, this`account, this`trail, this`guard, this`took, this`tookAt, this`taking
      ensures Valid() && account == AfterScoopIn(old(account), 15000)
      ensures guard == GuardNext(old(guard), Scooping(Reverse, 15000))
      ensures if first || !old(took) then took && taking == old(account) && tookAt == |old(log)|
              else took && taking == old(taking) && tookAt == old(tookAt)
    {
      hide AfterScoopIn, Tally, GuardNext, Admits, Kept;
      ghost var before, at, was := account, |log|, trail;
      KeptTrail(log, account, trail, guard, Standing());
      ScoopInIs(account, 15000);
      Note(Scooping(Reverse, 15000));
      if first || !took {
        took, tookAt, taking := true, at, before;
      }
    }

    /** The scoop is taken in, wherever the waste cover is and without a distance check. */
    method RecoverScoop(ghost exit: Account, ghost f0: Findings) returns (o: Outcome, ghost f: Findings)
      requires Valid() && Exited(guard) && Decided(exit, account, f0)
      requires f0.retract.None? && FoundNotClosed(f0) ==> !account.sum.wasteUnderway
      modifies this`script, this`log, this`account, this`trail, this`guard,
               this`emergencyStop, this`cleanPause, this`recoveryRequested,
               this`took, this`tookAt, this`taking
      ensures Valid() && (o == Cut ==> script == []) && Recovering(exit, account, f)
      ensures f == if f0.retract.None? then f0.(retract := Some(old(account).sum)) else f0
      ensures took && (f0.retract.None? ==> taking == old(account))
      ensures f0.retract.Some? && old(took) ==> taking == old(taking)
      ensures account.acts == old(account).acts + [Scooping(Reverse, 15000)]
      ensures o == Done ==> Decided(exit, account, f)
      ensures (o == Done ==> Exited(guard)) && guard.over == old(guard).over
      ensures WaitTells(Wait(old(Standing()), ScoopInOut, 15000, Close, old(script)), o, script, Standing())
    {
      hide WaitTells, BoundToStop, Unstopped, AfterScoopIn;
      TakenActs(account);
      hide Valid, Recovering, Swift, Used, Halted, Paused, Ticking, ArrivedWithin, PressedTwice, Calm, Faded, Clear;
      hide Admits;
      Flagging();
      SingleAdmitted(guard, Scooping(Reverse, 15000));
      RetractPasses(guard, 15000);
      hide GuardNext;
      f := if f0.retract.None? then f0.(retract := Some(account.sum)) else f0;
      if f0.retract.None? {
        RetractRecovering(exit, account, f0);
      } else {
        RetractAgain(exit, account, f0);
      }
      TakeScoopIn(f0.retract.None?);
      ghost var sent, under := account, guard;
      o := WaitMotor(ScoopInOut, 15000, Close);
      FadedTurns(under, guard);
      WaitedCalm(sent, account);
      CalmMeans(sent, account);
      CalmKeeps(sent, account);
      CalmRecovering(exit, sent, account, f);
      if o == Done {
        ghost var waited, arrived := account, guard;
        SendStop(ScoopInOut);
        FadedTurns(arrived, guard);
        StoppedHalted(waited, ScoopInOut);
        HaltedRecovering(exit, waited, account, f);
      }
    }

    /** With the scoop in: the emergency stop, the start sensor once more, and the turn down. */
    method TurnDownAgain(ghost exit: Account, ghost f: Findings) returns (o: Outcome)
      requires Valid() && Exited(guard) && Decided(exit, account, f) && f.retract.Some?
      modifies this`script, this`log, this`account, this`trail, this`guard,
               this`emergencyStop, this`cleanPause, this`recoveryRequested
      ensures Valid() && (o == Cut ==> script == []) && Decided(exit, account, f)
      ensures (o == Done ==> Exited(guard)) && guard.over == old(guard).over
      ensures account.acts == old(account).acts
              || account.acts == old(account).acts + [Spinning(70, Reverse, 100, 10000)]
      ensures o == Done ==> account.acts == old(account).acts + [Spinning(70, Reverse, 100, 10000)]
    {
      hide WaitTells, Valid, Decided, Swift, Used, Spun, Halted, Rest, TimeUp, Faded, Clear, Turned, Turning, Admits;
      hide OriginTells, AfterOrigin, Unstopped;
      ghost var held := guard;
      o := PassEmergency(exit, f);
      FadedTurns(held, guard);
      if Clear(guard) {
        ClearTurned(guard);
      }
      if o != Done {
        return;
      }
      ghost var start := account;
      var seated;
      ghost var read, begun;
      o, seated, read, begun := FindSpinOrigin(Reverse);
      SearchDecided(exit, start, account, f, read);
      SpunKeeps(start, account, read);
      if o != Done {
        return;
      }
      SoughtTurned(guard);
      ghost var sought := guard;
      PassDecided(exit, f);
      FadedTurns(sought, guard);
      FollowAdmitted(guard, Spinning(70, Reverse, 100, 10000));
      o := SpinAndStop(70, Reverse, exit, f);
    }

    /** The scoop and the main cover, where they are not in place. */
    method PutInPlace(ghost exit: Account, ghost f: Findings) returns (o: Outcome, scoopIn: bool, coverOpen: bool)
      requires Valid() && Exited(guard) && Decided(exit, account, f)
      requires f.retract.Some? && took && f.retract == Some(taking.sum)
      modifies this`script, this`log, this`account, this`trail, this`guard,
               this`emergencyStop, this`cleanPause, this`recoveryRequested,
               this`took, this`tookAt, this`taking
      ensures Valid() && (o == Cut ==> script == []) && Recovering(exit, account, f)
      ensures took && f.retract == Some(taking.sum)
      ensures guard.over == old(guard).over
      ensures PlaceTells(old(Standing()), old(script), o, scoopIn, coverOpen)
      ensures Begins(account.acts, old(account).acts + PlaceActs(scoopIn, coverOpen))
      ensures o == Done ==> account.acts == old(account).acts + PlaceActs(scoopIn, coverOpen)
    {
      hide WaitTells, Valid, Recovering, Swift, Used, Begins, PlaceActs, Faded, Clear;
      ghost var start, held := account, guard;
      scoopIn, coverOpen := false, false;
      PlaceStages(start.acts, false, false);
      var w;
      o, w := LookDecided(exit, f);
      FadedTurns(held, guard);
      if o != Done {
        return;
      }
      scoopIn := w.scoopIn;
      PlaceStages(start.acts, scoopIn, false);
      if !scoopIn {
        ghost var g;
        o, g := RecoverScoop(exit, f);
        if o != Done {
          return;
        }
      }
      ghost var placed, middle, standing := guard, script, Standing();
      o, w := LookDecided(exit, f);
      FadedTurns(placed, guard);
      if o != Done {
        return;
      }
      coverOpen := w.mainOpen;
      PlaceStages(start.acts, scoopIn, coverOpen);
      if coverOpen {
        o := RecoverMainCover(exit, f);
      }
      if !scoopIn {
        PlaceSeen(old(Standing()), old(script), o, middle, standing, coverOpen);
      }
    }

    method LookDecided(ghost exit: Account, ghost f: Findings) returns (o: Outcome, w: Word)
      requires Valid() && Decided(exit, account, f)
      modifies this`script, this`log, this`account, this`trail, this`guard,
               this`emergencyStop, this`cleanPause, this`recoveryRequested
      ensures Valid() && (o == Cut ==> script == []) && Decided(exit, account, f)
      ensures account.acts == old(account).acts
      ensures Faded(old(guard), guard)
      ensures o != Abort && (o == Cut <==> old(script) == [])
      ensures o == Done ==>
                && w == old(script)[0].word && script == old(script)[1..]
                && Standing() == Pressed(old(Standing()), old(script)[0].presses)
    {
      hide Valid, Decided, Pressed, Swift, Used, Read, Halted, Calm, Rest, Faded;
      ghost var start := account;
      ghost var whole := script;
      o, w := Look();
      UsedIs(whole, script);
      LookedCalm(start, account, w);
      CalmKeeps(start, account);
      CalmDecided(exit, start, account, f);
    }

    method RecoverMainCover(ghost exit: Account, ghost f: Findings) returns (o: Outcome)
      requires Valid() && Exited(guard) && Decided(exit, account, f)
      modifies this`script, this`log, this`account, this`trail, this`guard,
               this`emergencyStop, this`cleanPause, this`recoveryRequested
      ensures Valid() && (o == Cut ==> script == []) && Recovering(exit, account, f)
      ensures account.acts == old(account).acts + DriveActs(Reverse, 100)
      ensures guard.over == old(guard).over
      ensures CoverTells(old(Standing()), old(script), 10000, Close, o, script, Standing())
    {
      hide WaitTells, GoneBy, CoverTells;
      hide Valid, Recovering, DriveActs, Swift, Used, Halted, Paused, Ticking, ArrivedWithin, PressedTwice, Calm;
      hide Over, Faded, Clear;
      ghost var start := account;
      DriveMainCover(Reverse, 100);
      CoverDecided(exit, start, account, f);
      FullDrive(Reverse);
      ghost var sent, driven, left, standing := account, guard, script, Standing();
      o := WaitMotor(MainCover, 10000, Close);
      FadedTurns(driven, guard);
      CoverWaits(old(Standing()), old(script), left, standing, 10000, Close, o, script, Standing());
      WaitedCalm(sent, account);
      CalmKeeps(sent, account);
      CalmRecovering(exit, sent, account, f);
      if o == Done {
        ghost var waited, arrived := account, guard;
        SendStop(MainCover);
        FadedTurns(arrived, guard);
        StoppedHalted(waited, MainCover);
        HaltedRecovering(exit, waited, account, f);
      }
    }
  }

  // ------------------------------------------------------------ a run that breaks each rule

  /** No sensor answers. */
  const NOWHERE := Word(false, false, false, false, false, false, false, false, false)

  function At(presses: seq<Press>, word: Word, tof: int, i: nat): Instant {
    Instant(presses, word, map[], tof, 40_000_000 * i)
  }

  /** Before every look the same is pressed, and nothing of it counts. */
  function SwiftScript(n: nat, presses: seq<Press>): seq<Instant> {
    seq(n, i requires 0 <= i => At(presses, EASY, 1000, i))
  }

  lemma SwiftFirst(n: nat, presses: seq<Press>, rest: seq<Instant>)
    requires Pressed(Unpressed, presses) == Unpressed
    ensures Swift(SwiftScript(n, presses) + rest, n) && (SwiftScript(n, presses) + rest)[n..] == rest
  {
    hide Pressed;
  }

  lemma NoPress()
    ensures Pressed(Unpressed, []) == Unpressed
  {
  }

  const LATER := At([], NOWHERE, 0, 3)

  const PRESSES := [At([], NOWHERE, 0, 0), At([PauseButton], NOWHERE, 0, 1), At([PauseButton], NOWHERE, 0, 2)]

  /** What a run of do_clean says of its log, its exit and its recovery. */
  ghost predicate Tells(script: seq<Instant>, log: seq<Step>, k: nat, recovered: bool, resumed: bool, found: Findings) {
    && k <= |log| && AsScripted(script, Summarize(log, k), recovered, resumed, found)
    && (recovered ==> RecoveredFrom(log, k, resumed, found))
  }

  lemma PressedIn(n: nat, rest: seq<Instant>)
    ensures PressedAfter(SwiftScript(n, []) + (PRESSES + rest), n)
    ensures (SwiftScript(n, []) + (PRESSES + rest))[n + 3..] == rest
  {
    hide Swift, Pressed;
    NoPress();
    SwiftFirst(n, [], PRESSES + rest);
  }

  lemma AtOnceBreaks(log: seq<Step>, k: nat, recovered: bool, resumed: bool, found: Findings)
    requires Tells(SwiftScript(6, []) + (PRESSES + [LATER]), log, k, recovered, resumed, found)
    ensures !Holds(OpenFirst, log) && !Holds(CloseOverOut, log)
  {
    hide Holds, RecoveryVerdict, Swift, Summarize, PressedAfter;
    var script := SwiftScript(6, []) + (PRESSES + [LATER]);
    PressedIn(6, [LATER]);
    assert script[9] == script[9..][0];
    RecoveryKeepsIff(Judged(resumed, Holds(Answered, log[..k])), Summarize(log, k), found);
  }

  lemma OverShutCoverBreaks(log: seq<Step>, k: nat, recovered: bool, resumed: bool, found: Findings)
    requires Tells(SwiftScript(6, []) + (PRESSES + SwiftScript(14, [])), log, k, recovered, resumed, found)
    ensures !Holds(RetractByCover, log) && !Holds(TofChecked, log) && !Holds(TofClear, log)
  {
    hide Holds, RecoveryVerdict, Swift, Summarize, OpenByThen, SettledByThen, PressedAfter;
    var script := SwiftScript(6, []) + (PRESSES + SwiftScript(14, []));
    PressedIn(6, SwiftScript(14, []));
    NoPress();
    SwiftFirst(14, [], []);
    assert SwiftScript(14, []) + [] == SwiftScript(14, []);
    assert script[9] == script[9..][0];
    RecoveryKeepsIff(Judged(resumed, Holds(Answered, log[..k])), Summarize(log, k), found);
  }

  lemma UnderwayBreaks(log: seq<Step>, k: nat, recovered: bool, resumed: bool, found: Findings)
    requires Tells(SwiftScript(61, []) + (PRESSES + [LATER]), log, k, recovered, resumed, found)
    ensures !Holds(OneAtATime, log)
  {
    hide Holds, RecoveryVerdict, Swift, Summarize, OpenByThen, CoverPlaced, PressedAfter;
    var script := SwiftScript(61, []) + (PRESSES + [LATER]);
    PressedIn(61, [LATER]);
    assert script[64] == script[64..][0];
    RecoveryKeepsIff(Judged(resumed, Holds(Answered, log[..k])), Summarize(log, k), found);
  }

  /** A run of do_clean on a script. */
  method RunOn(script: seq<Instant>)
    returns (s: Sequencer, recovered: bool, resumed: bool, ghost found: Findings)
    ensures Tells(script, s.log, s.leftAt, recovered, resumed, found)
  {
    hide AsScripted, RecoveredFrom;
    s := new Sequencer(script, Unpressed);
    var o, course;
    o, recovered, course, resumed, found := s.DoClean();
  }

  /**
   Paused and resumed in the first wait: the recovery then shuts the waste cover with the main cover not read open
   and the scoop not out.
   */
  method ResumedAtOnce() returns (s: Sequencer)
    ensures !Holds(OpenFirst, s.log) && !Holds(CloseOverOut, s.log)
  {
    hide Tells, Holds;
    var recovered, resumed;
    ghost var found;
    s, recovered, resumed, found := RunOn(SwiftScript(6, []) + (PRESSES + [LATER]));
    AtOnceBreaks(s.log, s.leftAt, recovered, resumed, found);
  }

  /**
   The same over a shut waste cover: the recovery takes the scoop in although the waste cover was never moved and
   the distance never checked.
   */
  method ResumedOverShutCover() returns (s: Sequencer)
    ensures !Holds(RetractByCover, s.log) && !Holds(TofChecked, s.log) && !Holds(TofClear, s.log)
  {
    hide Tells, Holds;
    var recovered, resumed;
    ghost var found;
    s, recovered, resumed, found := RunOn(SwiftScript(6, []) + (PRESSES + SwiftScript(14, [])));
    OverShutCoverBreaks(s.log, s.leftAt, recovered, resumed, found);
  }

  /** Paused and resumed while the scoop goes out: the recovery sets the waste cover going with the scoop underway. */
  method ResumedUnderway() returns (s: Sequencer)
    ensures !Holds(OneAtATime, s.log)
  {
    hide Tells, Holds;
    var recovered, resumed;
    ghost var found;
    s, recovered, resumed, found := RunOn(SwiftScript(61, []) + (PRESSES + [LATER]));
    UnderwayBreaks(s.log, s.leftAt, recovered, resumed, found);
  }

  /** An obstacle before the first retract, and a press of the pause button: the retract goes out over it. */
  method ResumedOverObstacle() returns (s: Sequencer)
    ensures !Holds(TofClear, s.log) && Interlocked(s.log)
  {
    var last := [At([], NOWHERE, 300, 0), At([PauseButton], NOWHERE, 300, 1)];
    hide Interlocked, Holds, Swift, SwiftScript, Pressed, SeatAfter, Orderly, ResumedOver, GuardOf, ActsOf;
    hide ScenarioActs, Summarize, VerdictOn, AccountOf, PressedAfter, Untouched;
    NoPress();
    var script := SwiftScript(972, []) + last;
    SwiftFirst(972, [], last);
    s := new Sequencer(script, Unpressed);
    var o, recovery, course, resumed := s.CleanToExit();
  }

  lemma RetractsUnseeing(log: seq<Step>)
    ensures !Holds(TofAbove, log) ==> exists k :: 0 <= k < |log| && MovesTo(log[k], ScoopInOut, Reverse)
  {
    hide Summarize;
    if k :| 0 <= k < |log| && !ObeysAt(TofAbove, log, k) {
      assert MovesTo(log[k], ScoopInOut, Reverse);
    }
  }

  /** A script whose first distance check has no answer, with the same presses before every look. */
  method RunUnseeing(presses: seq<Press>) returns (s: Sequencer)
    requires Pressed(Unpressed, presses) == Unpressed
    ensures !Holds(TofAbove, s.log) && !Holds(Answered, s.log) && Interlocked(s.log)
  {
    var last := [At([], NOWHERE, 0, 0)];
    NoPress();
    hide Interlocked, Holds, Swift, SwiftScript, Pressed, SeatAfter, Orderly, ResumedOver, GuardOf, ActsOf;
    hide ScenarioActs, Summarize, VerdictOn, AccountOf, PressedAfter, Untouched;
    var script := SwiftScript(972, presses) + last;
    SwiftFirst(972, presses, last);
    assert UnansweredAfter(script, 972);
    hide UnansweredAfter, Unanswered, IsQuiet, Distance;
    s := new Sequencer(script, Unpressed);
    var o, recovery, course, resumed := s.CleanToExit();
  }

  /** A check without an answer before the first retract: the retract goes out all the same. */
  method RetractedUnseeing() returns (s: Sequencer)
    ensures !Holds(TofAbove, s.log) && !Holds(Answered, s.log) && Interlocked(s.log)
  {
    NoPress();
    s := RunUnseeing([]);
  }

  /**
   An emergency stop before each of 972 looks, and another command right after it: the cleaning comes to its first
   retract all the same.
   */
  method StoppedInVain() returns (s: Sequencer)
    ensures exists k :: 0 <= k < |s.log| && MovesTo(s.log[k], ScoopInOut, Reverse)
  {
    assert Pressed(Unpressed, [EmergencyStop, ClearStop]) == Unpressed by {
      assert [EmergencyStop, ClearStop][1..] == [ClearStop] && [ClearStop][1..] == [];
      OnePress(Flags(true, false, false), ClearStop);
    }
    hide Interlocked, Holds, Pressed;
    s := RunUnseeing([EmergencyStop, ClearStop]);
    RetractsUnseeing(s.log);
  }

  // ------------------------------------------------------------ what goes out under the flags

  function DarkScript(n: nat): seq<Instant> {
    seq(n, i requires 0 <= i => At([], NOWHERE, 0, i))
  }

  lemma DarkFirst(n: nat)
    ensures Dark(DarkScript(n)) && |DarkScript(n)| == n
  {
  }

  /** How many instants make so many turns. */
  function InstantsFor(turns: nat): (n: nat)
    ensures DarkTurns(n) == turns
    decreases turns
  {
    if turns == 0 then 0 else if turns == 1 then 2 else InstantsFor(turns - 1) + 5
  }

  /** A cleaning up to its calibration, whose search does not find the sensor. */
  method RunToSearch(presses: seq<Press>, rest: seq<Instant>) returns (s: Sequencer, o: Outcome)
    ensures SeatTells(Unpressed, GuardOf(s.log), o, [At(presses, NOWHERE, 0, 0)] + rest)
    ensures Orderly(s.log) && (o != Abort ==> Left !in s.log)
  {
    hide Swift, SwiftScript, SeatTells, Orderly, Pressed, GuardOf, Interlocked, Holds, ResumedOver, ActsOf;
    hide ScenarioActs, Summarize, VerdictOn, AccountOf, PressedAfter, Untouched, BlockedAfter, UnansweredAfter;
    NoPress();
    var last := [At(presses, NOWHERE, 0, 0)] + rest;
    var script := SwiftScript(1989, []) + last;
    SwiftFirst(1989, [], last);
    s := new Sequencer(script, Unpressed);
    var recovery, course, resumed;
    o, recovery, course, resumed := s.CleanToExit();
  }

  /** Paused and resumed as the calibration begins: any number of full turns goes out, and the scenario is not left. */
  method AskedInVain(turns: nat) returns (s: Sequencer)
    ensures Left !in s.log && |Since(s.log, RequestFlag)| == turns && AllTurns(Since(s.log, RequestFlag))
  {
    var n := InstantsFor(turns);
    DarkFirst(n);
    TwoPresses();
    var last := [At([PauseButton, PauseButton], NOWHERE, 0, 0)] + DarkScript(n);
    assert last[1..] == DarkScript(n);
    hide Dark, Pressed, Orderly, Since;
    var o;
    s, o := RunToSearch([PauseButton, PauseButton], DarkScript(n));
  }

  /** And so it does in a pause. */
  method PausedInVain(turns: nat) returns (s: Sequencer)
    ensures Left !in s.log && |Since(s.log, PauseFlag)| == turns && AllTurns(Since(s.log, PauseFlag))
  {
    var n := InstantsFor(turns);
    DarkFirst(n);
    OnePress(Unpressed, PauseButton);
    var last := [At([PauseButton], NOWHERE, 0, 0)] + DarkScript(n);
    assert last[1..] == DarkScript(n);
    hide Dark, Pressed, Orderly, Since;
    var o;
    s, o := RunToSearch([PauseButton], DarkScript(n));
  }

  /** An emergency stop at the look before the first turn of the search: the turn goes out all the same. */
  method StoppedInSearch() returns (s: Sequencer)
    ensures Since(s.log, StopFlag) == [FullTurn(Reverse)]
  {
    var rest := [At([], NOWHERE, 0, 0), At([EmergencyStop], NOWHERE, 0, 1)];
    NoPress();
    var last := [At([], NOWHERE, 0, 0)] + rest;
    assert last[1..] == rest && CaughtIn(rest, 2);
    hide Dark, Pressed, Orderly, Since, Caught;
    var o;
    s, o := RunToSearch([], rest);
  }

  lemma TwoPresses()
    ensures Pressed(Unpressed, [PauseButton, PauseButton]) == Flags(false, false, true)
  {
    assert [PauseButton, PauseButton][1..] == [PauseButton];
    OnePress(Flags(false, true, false), PauseButton);
  }
}
