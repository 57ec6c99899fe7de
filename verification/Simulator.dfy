/** The simulated child: src/tools/time_manager.cpp (durations and deadlines) and the work loop of
    src/process/process_simulator.cpp. Instants and durations are whole nanoseconds. */
module Simulator {

  const MS: nat := 1_000_000
  const VERYSMALL: nat := 10
  const LONG: nat := 1000
  const SMALLS: nat := 1
  const LONGS: nat := 30
  const SMALLM: nat := 1
  const LONGM: nat := 30

  datatype NapType = Milliseconds | Seconds | Minutes

  /** The range randomMs, randomSec or randomMin draws from. */
  predicate InRange(napType: NapType, val: nat) {
    match napType
    case Milliseconds => VERYSMALL <= val <= LONG
    case Seconds => SMALLS <= val <= LONGS
    case Minutes => SMALLM <= val <= LONGM
  }

  const NO_REASON := ""
  const MAX_LIFE_REASON := "Maximum allowed lifetime exceeded"
  const ORPHAN_REASON := "Parent process has terminated. Exiting child process."

  class TimeManager {
    var startTime: int
    var endTime: int
    var currentTime: int
    var maxLifeTime: int
    var sleepDurationMs: int
    var units: string

    /** The clock is read once per field, in the order of their declarations. */
    constructor (start: int, end: int, current: int)
      requires start <= end <= current
      ensures startTime == start && endTime == end && currentTime == current
      ensures maxLifeTime == 0 && sleepDurationMs == 0 && units == " milliseconds"
    {
      startTime, endTime, currentTime := start, end, current;
      maxLifeTime, sleepDurationMs, units := 0, 0, " milliseconds";
    }

    /** `val` is the number drawn. Only the two longer kinds change the units. */
    method SetSleepDuration(napType: NapType, val: nat)
      requires InRange(napType, val)
      modifies this
      ensures startTime == old(startTime) && currentTime == old(currentTime)
      ensures VERYSMALL <= sleepDurationMs <= LONGM * 60 * 1000
      ensures napType.Milliseconds? ==> sleepDurationMs == val && units == old(units)
      ensures napType.Seconds? ==> sleepDurationMs == val * 1000 && units == " seconds"
      ensures napType.Minutes? ==> sleepDurationMs == val * 60 * 1000 && units == " minutes"
      ensures napType.Milliseconds? ==> 10 <= sleepDurationMs <= 1000
      ensures napType.Seconds? ==> 1_000 <= sleepDurationMs <= 30_000
      ensures napType.Minutes? ==> 60_000 <= sleepDurationMs <= 1_800_000
      ensures endTime == startTime + sleepDurationMs * MS
      ensures maxLifeTime == (sleepDurationMs + LONG) * MS
    {
      match napType {
        case Minutes =>
          sleepDurationMs, units := val * 60 * 1000, " minutes";
        case Seconds =>
          sleepDurationMs, units := val * 1000, " seconds";
        case Milliseconds =>
          sleepDurationMs := val;
      }
      endTime := startTime + sleepDurationMs * MS;
      maxLifeTime := (sleepDurationMs + LONG) * MS;
    }

    /** The deadlines setSleepDuration leaves: the longest life outlasts the planned one. */
    predicate Scheduled()
      reads this
    {
      endTime == startTime + sleepDurationMs * MS && maxLifeTime == (sleepDurationMs + LONG) * MS
    }

    predicate EndOfLife()
      reads this
    {
      currentTime >= endTime
    }

    predicate MaxLifeExceeded()
      reads this
    {
      currentTime - startTime >= maxLifeTime
    }

    /** Exceeding the longest life implies the end of the planned one, whatever the clock shows. */
    lemma MaxLifeIsLater()
      requires Scheduled()
      ensures currentTime - startTime >= maxLifeTime ==> currentTime >= endTime + LONG * MS
      ensures MaxLifeExceeded() ==> EndOfLife()
    {
    }
  }

  /** What one turn of the loop meets: continue_ and getppid() == 1 when proceed() looks, and how far the clock has
      moved once the nap is over. */
  datatype Turn = Turn(continues: bool, orphaned: bool, nap: nat)

  function Slept(turns: seq<Turn>): nat {
    if turns == [] then 0 else Slept(turns[..|turns| - 1]) + turns[|turns| - 1].nap
  }

  /** Every nap lasts at least as long as the shortest number drawn for it. */
  predicate NapsTakeTime(turns: seq<Turn>) {
    forall i :: 0 <= i < |turns| ==> turns[i].nap >= VERYSMALL * MS
  }

  function CeilDiv(a: nat, b: nat): nat
    requires b > 0
  {
    (a + b - 1) / b
  }

  lemma CeilDivBound(a: nat)
    ensures a <= 10 * CeilDiv(a, VERYSMALL) < a + 10
  {
  }

  lemma {:induction false} SleptAtLeast(turns: seq<Turn>)
    requires NapsTakeTime(turns)
    ensures Slept(turns) >= |turns| * VERYSMALL * MS
  {
    if turns == [] {
    } else {
      SleptAtLeast(turns[..|turns| - 1]);
    }
  }

  /** The first n turns let the loop go on: no stop flag, a parent, and time left, out of `rest`, before each nap. */
  predicate LetLive(turns: seq<Turn>, n: nat, rest: int)
    requires n < |turns|
  {
    forall i :: 0 <= i < n ==> turns[i].continues && !turns[i].orphaned && Slept(turns[..i]) < rest
  }

  lemma SleptOneMore(turns: seq<Turn>, n: nat, rest: int)
    requires n + 1 < |turns| && LetLive(turns, n, rest)
    requires turns[n].continues && !turns[n].orphaned && Slept(turns[..n]) < rest
    ensures Slept(turns[..n + 1]) == Slept(turns[..n]) + turns[n].nap
    ensures LetLive(turns, n + 1, rest)
  {
    assert turns[..n + 1][..n] == turns[..n];
  }

  lemma NothingSlept(turns: seq<Turn>, rest: int)
    ensures Slept([]) == 0 && (turns != [] ==> LetLive(turns, 0, rest))
  {
  }

  class ProcessSimulator {
    const timeManager: TimeManager
    var reason: string

    constructor (timeManager: TimeManager)
      ensures this.timeManager == timeManager && reason == NO_REASON
    {
      this.timeManager, reason := timeManager, NO_REASON;
    }

    method Proceed(turn: Turn) returns (res: bool)
      modifies this
      ensures res <==> turn.continues && timeManager.currentTime < timeManager.endTime
                       && timeManager.currentTime < timeManager.startTime + timeManager.maxLifeTime && !turn.orphaned
      ensures reason == if !turn.continues || timeManager.currentTime >= timeManager.endTime then old(reason)
                        else if timeManager.currentTime >= timeManager.startTime + timeManager.maxLifeTime
                        then MAX_LIFE_REASON
                        else if turn.orphaned then ORPHAN_REASON else old(reason)
    {
      res := turn.continues;
      if res {
        if timeManager.EndOfLife() {
          res := false;
        } else if timeManager.MaxLifeExceeded() {
          reason := MAX_LIFE_REASON;
          res := false;
        } else if turn.orphaned {
          reason := ORPHAN_REASON;
          res := false;
        }
      }
    }

    /** The loop of work(). It naps exactly until the first turn that finds the stop flag, the end of its life or its
        parent gone; that takes at most ceil(d / 10) naps for a chosen duration of d ms, and the reason given is never
        the exceeded lifetime. */
    method Work(turns: seq<Turn>) returns (naps: nat)
      requires timeManager.Scheduled() && timeManager.startTime <= timeManager.currentTime
      requires timeManager.sleepDurationMs >= 0 && NapsTakeTime(turns)
      requires |turns| > CeilDiv(timeManager.sleepDurationMs, VERYSMALL)
      modifies this, timeManager`currentTime
      ensures naps <= CeilDiv(timeManager.sleepDurationMs, VERYSMALL) && 10 * naps < timeManager.sleepDurationMs + 10
      ensures timeManager.currentTime == old(timeManager.currentTime) + Slept(turns[..naps])
      ensures LetLive(turns, naps, timeManager.endTime - old(timeManager.currentTime))
      ensures turns[naps].continues && !turns[naps].orphaned ==> timeManager.currentTime >= timeManager.endTime
      ensures timeManager.endTime == timeManager.startTime + timeManager.sleepDurationMs * MS
      ensures reason == if turns[naps].continues && timeManager.currentTime < timeManager.endTime then ORPHAN_REASON
                        else old(reason)
    {
      hide CeilDiv, Slept, NapsTakeTime, LetLive;
      naps := 0;
      ghost var start := timeManager.currentTime;
      NothingSlept(turns, timeManager.endTime - start);
      CeilDivBound(timeManager.sleepDurationMs);
      timeManager.MaxLifeIsLater();
      var proceeding := Proceed(turns[naps]);
      while proceeding
        invariant timeManager.Scheduled() && timeManager.startTime <= start
        invariant naps < |turns| && naps <= CeilDiv(timeManager.sleepDurationMs, VERYSMALL)
        invariant timeManager.currentTime == start + Slept(turns[..naps])
        invariant proceeding <==> turns[naps].continues && timeManager.currentTime < timeManager.endTime
                                  && !turns[naps].orphaned
        invariant LetLive(turns, naps, timeManager.endTime - start)
        invariant reason == if !proceeding && turns[naps].continues && timeManager.currentTime < timeManager.endTime
                            then ORPHAN_REASON else old(reason)
        decreases |turns| - naps
      {
        NapFits(turns, naps, timeManager.sleepDurationMs);
        SleptOneMore(turns, naps, timeManager.endTime - start);
        timeManager.currentTime := timeManager.currentTime + turns[naps].nap;
        naps := naps + 1;
        timeManager.MaxLifeIsLater();
        proceeding := Proceed(turns[naps]);
      }
    }
  }

  /** If the planned life is not over after these naps, one more is allowed. */
  lemma NapFits(turns: seq<Turn>, n: nat, durationMs: nat)
    requires n <= |turns| && NapsTakeTime(turns) && Slept(turns[..n]) < durationMs * MS
    ensures n + 1 <= CeilDiv(durationMs, VERYSMALL)
  {
    SleptAtLeast(turns[..n]);
    assert n * VERYSMALL < durationMs;
  }
}
