/** When tmevt_lefttim says 0 although the next tick does not process the event. */
module RemainingTime {
  import opened Types
  import opened TaskQueues
  import opened SystemClock
  import opened Core
  import opened CoreProofs
  import opened TaskCalls
  import opened TimeCalls
  import opened TimeCallProofs
  import opened Startup

  /** It happens whenever an alarm of 0 ms is started while base_time is rounded up. */
  lemma ZeroButLater(g: Config, c: Core, i: nat)
    requires Inv(g, c) && Live(c) && i < |c.alm| && c.clk.sub > 0
    ensures var c' := StaAlm(c, i, 0).0;
            && Inv(g, c') && AlmBlk(i) in c'.tm && LeftTim(c', AlmBlk(i)) == 0
            && c'.tm[AlmBlk(i)].time > Advance(g, c'.clk).cur
  {
    hide Linked, Sorted, TimersInv;
    StaAlmOk(g, c, i, 0);
    LeftTimExact(g, StaAlm(c, i, 0).0, AlmBlk(i));
  }

  /** A kernel with one task, one alarm, and three ticks to the millisecond. */
  const Thirds := Config([0], {}, [], 1, 1, 3)

  /** Its first dispatch, and the start of the first tick, the alarm of 0 ms having been started before. */
  const First := InitCore(Thirds, {}, [0])

  function Started(): Core
    requires First.alm != []
  {
    IntEnter(StaAlm(First, 0, 0).0)
  }

  function NextTick(c: Core): Core
    requires ValidConfig(Thirds) && c.nest > 0
  {
    TickBegin(Thirds, TickEnd(c))
  }

  /** There the alarm is reported as 0, and processed by the third tick. */
  lemma ThirdTick()
    ensures ValidConfig(Thirds) && Live(First) && |First.alm| == 1
    ensures MayTick(Started()) && AlmBlk(0) in Started().tm && LeftTim(Started(), AlmBlk(0)) == 0
    ensures var c1 := TickBegin(Thirds, Started());
            MayEnd(c1) && MayEnd(NextTick(c1)) && MayFire(NextTick(NextTick(c1)), AlmBlk(0))
  {
    StartState();
    assert Started().tm == map[AlmBlk(0) := Ev(1, CallAlmhdr(0), 0, 0)];
  }

  lemma StartState()
    ensures ValidConfig(Thirds) && Live(First) && First.alm == [false] && First.tm == map[]
    ensures First.clk == Clock(0, 0, 0, 1, 0, 0) && First.nest == 0 && First.drain.None?
  {
    InitCoreInv(Thirds, {}, [0]);
    TopRunnable(First.ts);
    assert [0][1..] == [];
  }
}
