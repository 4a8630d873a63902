/**
 * The intro splash screen: a phase that its three one-shot timers advance,
 * and the completion callback the last timer fires.
 */
module Intro {

  /** The splash screen's animation phase. */
  datatype IntroPhase = Enter | Reveal | Exit

  /** What a timer does when it fires. */
  datatype TimerAction = SetPhase(next: IntroPhase) | Complete

  /** A one-shot timer, `delay` milliseconds after the splash screen mounts. */
  datatype Timer = Timer(delay: nat, action: TimerAction)

  /** The timers the splash screen schedules when it mounts, in firing order. */
  const Schedule: seq<Timer> := [
    Timer(1200, SetPhase(Reveal)),
    Timer(2800, SetPhase(Exit)),
    Timer(3600, Complete)
  ]

  /** The phase after one timer fires; completion leaves the phase alone. */
  function Step(p: IntroPhase, t: Timer): IntroPhase
  {
    match t.action
    case SetPhase(q) => q
    case Complete => p
  }

  /** The phase after the timers in `fired` have fired, in order, from Enter. */
  function PhaseAfter(fired: seq<Timer>): IntroPhase
  {
    if fired == [] then Enter else Step(PhaseAfter(fired[..|fired| - 1]), fired[|fired| - 1])
  }

  /** The order of the phases. */
  function PhaseRank(p: IntroPhase): nat
  {
    match p
    case Enter => 0
    case Reveal => 1
    case Exit => 2
  }

  /** How many of the scheduled timers have fired `t` milliseconds after mounting. */
  function FiredBy(t: nat): (k: nat)
    ensures k <= |Schedule|
    ensures forall i :: 0 <= i < |Schedule| ==> (i < k <==> Schedule[i].delay <= t)
  {
    if t < 1200 then 0 else if t < 2800 then 1 else if t < 3600 then 2 else 3
  }

  /** The phase `t` milliseconds after mounting. */
  function PhaseAt(t: nat): IntroPhase
  {
    PhaseAfter(Schedule[..FiredBy(t)])
  }

  /** The completion callback has fired `t` milliseconds after mounting. */
  predicate CompletedBy(t: nat)
  {
    FiredBy(t) == |Schedule|
  }

  /** Firing the first k timers gives the phases Enter, Reveal, Exit, Exit. */
  lemma PhaseAfterSchedule(k: nat)
    requires k <= |Schedule|
    ensures PhaseAfter(Schedule[..k]) == [Enter, Reveal, Exit, Exit][k]
  {
  }

  /** The phase is Enter before 1200 ms, Reveal before 2800 ms and Exit from then on. */
  lemma PhaseTimeline(t: nat)
    ensures t < 1200 ==> PhaseAt(t) == Enter
    ensures 1200 <= t < 2800 ==> PhaseAt(t) == Reveal
    ensures 2800 <= t ==> PhaseAt(t) == Exit
    ensures CompletedBy(t) <==> t >= 3600
  {
    PhaseAfterSchedule(FiredBy(t));
  }

  /** The phase never goes back, and completion once reached stays reached. */
  lemma PhaseMonotone(t1: nat, t2: nat)
    requires t1 <= t2
    ensures PhaseRank(PhaseAt(t1)) <= PhaseRank(PhaseAt(t2))
    ensures CompletedBy(t1) ==> CompletedBy(t2)
  {
    PhaseTimeline(t1);
    PhaseTimeline(t2);
  }

  /**
   * A mounted splash screen. `pending` holds the timers not yet fired and
   * `clock` the time, in milliseconds since this screen mounted, at which the
   * last one fired.
   */
  class IntroScreen {
    var phase: IntroPhase
    var pending: seq<Timer>
    var clock: nat

    /** How many scheduled timers have fired. */
    function Fired(): nat
      reads this
      requires |pending| <= |Schedule|
    {
      |Schedule| - |pending|
    }

    ghost predicate Valid()
      reads this
    {
      |pending| <= |Schedule| &&
      pending == Schedule[Fired()..] &&
      phase == PhaseAfter(Schedule[..Fired()]) &&
      clock == (if Fired() == 0 then 0 else Schedule[Fired() - 1].delay)
    }

    /** Mounting: phase Enter, all three timers scheduled. */
    constructor ()
      ensures Valid()
      ensures phase == Enter && pending == Schedule && clock == 0
    {
      phase := Enter;
      pending := Schedule;
      clock := 0;
    }

    /**
     * The host fires the earliest pending timer at its deadline. `completed`
     * says whether it was the completion timer.
     */
    method Fire() returns (completed: bool)
      requires Valid() && pending != []
      modifies this
      ensures Valid()
      ensures pending == old(pending)[1..]
      ensures clock == old(pending)[0].delay
      ensures phase == PhaseAt(clock)
      ensures PhaseRank(old(phase)) <= PhaseRank(phase)
      ensures completed <==> pending == []
      ensures completed <==> CompletedBy(clock)
    {
      var t := pending[0];
      ghost var k := Fired();
      assert Schedule[..k + 1] == Schedule[..k] + [t];
      assert Schedule[..k + 1][..k] == Schedule[..k];
      pending := pending[1..];
      clock := t.delay;
      match t.action {
        case SetPhase(next) =>
          phase := next;
          completed := false;
        case Complete =>
          completed := true;
      }
      PhaseAfterSchedule(k);
      PhaseAfterSchedule(k + 1);
      PhaseTimeline(clock);
    }

    /** Unmounting: the effect's cleanup clears every timer still pending. */
    method Unmount()
      modifies this
      ensures pending == [] && phase == old(phase) && clock == old(clock)
    {
      pending := [];
    }
  }
}
