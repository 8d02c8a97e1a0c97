/** CSemaphore::Wait as one caller runs it: the time budget, the slices, and what each answer of the world leads to. */
module SemaphoreWait {
  import opened Basics

  /** (unsigned long)-1 on a 64-bit build, and the length of one slice in milliseconds. */
  const INFINITE: nat := WIDTH - 1
  const INTERVAL_TIMEOUT: nat := 1000

  /** What the world answers in one round; the fields of a timed-out round are the values the caller's loads see. */
  datatype Round =
    | Acquired
    | TimedOut(found: nat, owner: nat, alive: bool, over: Overwrite)
    | Failed(code: int)

  /** Whether another thread wrote the id cell while the caller slept. */
  datatype Overwrite = Untouched | By(other: nat)

  datatype Result = Success | Timeout | Error(code: int) | StillWaiting

  /** The slices a finite budget is cut into. */
  function Plan(t: nat): seq<nat> {
    if t > INTERVAL_TIMEOUT then [INTERVAL_TIMEOUT] + Plan(t - INTERVAL_TIMEOUT) else [t]
  }

  /** max(1, ceil(t / 1000)). */
  function MaxRounds(t: nat): nat { if t == 0 then 1 else (t + INTERVAL_TIMEOUT - 1) / INTERVAL_TIMEOUT }

  /** The caller finds the published owner dead and writes its own id. */
  predicate Claims(me: nat, r: Round) { r.TimedOut? && r.found != me && !r.alive }

  predicate Wins(me: nat, r: Round) { r.Acquired? || (Claims(me, r) && (r.over == Untouched || r.over == By(me))) }

  predicate GoesOn(me: nat, r: Round) { r.TimedOut? && !Wins(me, r) }

  /** What the id cell holds after the rounds: the last value written in the last round that saw or wrote it. */
  function CellAfter(me: nat, rounds: seq<Round>, initial: nat): nat {
    if rounds == [] then initial
    else
      match rounds[|rounds| - 1]
      case Acquired => me
      case Failed(_) => CellAfter(me, rounds[..|rounds| - 1], initial)
      case TimedOut(found, owner, alive, over) =>
        if found == me then me else if alive then owner else if over.By? then over.other else me
  }

  /**
   The cell after one more round, case by case: an acquirer is published; a round that ends in an error, or that finds
   the caller's own id or a living owner, writes nothing; one that finds a dead owner writes the caller's id, which
   stays until somebody writes over it.
   */
  lemma CellIs(me: nat, rounds: seq<Round>, round: Round, initial: nat)
    ensures var cell := CellAfter(me, rounds + [round], initial);
      && (round.Acquired? ==> cell == me)
      && (round.Failed? ==> cell == CellAfter(me, rounds, initial))
      && (round.TimedOut? && round.found == me ==> cell == round.found)
      && (round.TimedOut? && round.found != me && round.alive ==> cell == round.owner)
      && (round.TimedOut? && round.found != me && !round.alive && round.over.Untouched? ==> cell == me)
      && (round.TimedOut? && round.found != me && !round.alive && round.over.By? ==> cell == round.over.other)
  {
    assert (rounds + [round])[..|rounds|] == rounds;
  }

  lemma CellAfterOne(me: nat, rounds: seq<Round>, k: nat, initial: nat)
    requires k < |rounds|
    ensures CellAfter(me, rounds[..k + 1], initial) == CellAfter(me, [rounds[k]], CellAfter(me, rounds[..k], initial))
  {
    assert rounds[..k + 1][..k] == rounds[..k];
    assert [rounds[k]][..0] == [];
  }

  /** What one turn of the loop takes off the budget. */
  function Slice(left: nat): nat { if left == INFINITE || left > INTERVAL_TIMEOUT then INTERVAL_TIMEOUT else left }

  function Rest(left: nat): nat {
    if left == INFINITE then INFINITE else if left > INTERVAL_TIMEOUT then left - INTERVAL_TIMEOUT else 0
  }

  lemma PlanTurn(used: seq<nat>, left: nat, timeout: nat)
    requires used + Plan(left) == Plan(timeout)
    requires left < INFINITE
    ensures used + [Slice(left)] <= Plan(timeout)
    ensures left > INTERVAL_TIMEOUT ==> used + [Slice(left)] + Plan(Rest(left)) == Plan(timeout)
    ensures left <= INTERVAL_TIMEOUT ==> used + [Slice(left)] == Plan(timeout)
    ensures |used| < MaxRounds(timeout)
  {
    PlanUsesBudget(timeout);
  }

  lemma {:induction false} PlanSums(t: nat)
    ensures Sum(Plan(t)) == t
  {
    if t > INTERVAL_TIMEOUT {
      PlanSums(t - INTERVAL_TIMEOUT);
      SumJoin([INTERVAL_TIMEOUT], Plan(t - INTERVAL_TIMEOUT));
      SumPush([], INTERVAL_TIMEOUT);
      assert [] + [INTERVAL_TIMEOUT] == [INTERVAL_TIMEOUT];
    } else {
      SumPush([], t);
      assert [] + [t] == [t];
    }
  }

  lemma OneRoundMore(t: nat)
    requires t > INTERVAL_TIMEOUT
    ensures MaxRounds(t) == 1 + MaxRounds(t - INTERVAL_TIMEOUT)
  {
  }

  lemma {:induction false} PlanUsesBudget(t: nat)
    ensures Sum(Plan(t)) == t && |Plan(t)| == MaxRounds(t)
    ensures forall i :: 0 <= i < |Plan(t)| ==> Plan(t)[i] <= INTERVAL_TIMEOUT
    ensures forall i :: 0 <= i < |Plan(t)| - 1 ==> Plan(t)[i] == 1000
    ensures if t == 0 then |Plan(t)| == 1 else 1000 * (|Plan(t)| - 1) < t <= 1000 * |Plan(t)|
  {
    PlanSums(t);
    if t > INTERVAL_TIMEOUT {
      PlanUsesBudget(t - INTERVAL_TIMEOUT);
      OneRoundMore(t);
    }
  }

  /**
   However early a finite wait ends, it has asked for no more than its budget, and for all of it only if it ran dry.
   */
  lemma {:induction false} BudgetKept(t: nat, used: seq<nat>)
    requires used <= Plan(t)
    ensures Sum(used) <= t && |used| <= MaxRounds(t)
    ensures used == Plan(t) ==> Sum(used) == t && |used| == MaxRounds(t)
  {
    PlanUsesBudget(t);
    var rest := Plan(t)[|used|..];
    assert Plan(t) == used + rest;
    SumJoin(used, rest);
  }

  /** Slices as the promise to the caller has them. */
  ghost predicate Spent(timeout: nat, slices: seq<nat>) {
    && (timeout == INFINITE ==> forall i :: 0 <= i < |slices| ==> slices[i] == INTERVAL_TIMEOUT)
    && (timeout != INFINITE ==> slices <= Plan(timeout) && Sum(slices) <= timeout && |slices| <= MaxRounds(timeout))
  }

  /** And while there is something left. */
  ghost predicate OnBudget(timeout: nat, left: nat, slices: seq<nat>) {
    && Spent(timeout, slices) && left <= INFINITE && (left == INFINITE <==> timeout == INFINITE)
    && (timeout != INFINITE ==> slices + Plan(left) == Plan(timeout) && |slices| < MaxRounds(timeout))
  }

  lemma BudgetStart(timeout: nat)
    requires timeout <= INFINITE
    ensures OnBudget(timeout, timeout, [])
  {
    if timeout != INFINITE {
      PlanUsesBudget(timeout);
      BudgetKept(timeout, []);
      assert [] + Plan(timeout) == Plan(timeout);
    }
  }

  /** One turn of the loop stays within the budget and ends it exactly when nothing is left. */
  lemma BudgetTurn(timeout: nat, left: nat, slices: seq<nat>)
    requires OnBudget(timeout, left, slices)
    ensures var now := slices + [Slice(left)];
      && Spent(timeout, now)
      && (Rest(left) != 0 ==> OnBudget(timeout, Rest(left), now))
      && (Rest(left) == 0 ==> timeout != INFINITE && now == Plan(timeout) && Sum(now) == timeout)
  {
    if timeout != INFINITE {
      PlanTurn(slices, left, timeout);
      var now := slices + [Slice(left)];
      BudgetKept(timeout, now);
      if left > INTERVAL_TIMEOUT { PlanTurn(now, Rest(left), timeout); }
    }
  }

  /** The state a semaphore handle shares with all others: the cell with the last acquirer's id. */
  class CSemaphore {
    var cell: nat

    constructor (initial: nat)
      ensures cell == initial
    {
      cell := initial;
    }

    /**
     `rounds` is what the world answers, round by round; a list that ends early leaves the caller waiting. `slices` are
     the timeouts handed to TimeWait.
     */
    method Wait(me: nat, timeout: nat, rounds: seq<Round>) returns (r: Result, slices: seq<nat>)
      requires timeout <= INFINITE
      modifies this
      ensures |slices| <= |rounds|
      ensures Spent(timeout, slices)
      ensures forall i :: 0 <= i < |slices| - 1 ==> GoesOn(me, rounds[i])
      ensures r.Success? <==> slices != [] && Wins(me, rounds[|slices| - 1])
      ensures r.Success? ==> cell == me
      ensures r.Error? <==> slices != [] && rounds[|slices| - 1].Failed?
      ensures r.Error? ==> r.code == rounds[|slices| - 1].code
      ensures r.Timeout? <==>
        timeout != INFINITE && slices == Plan(timeout) && Sum(slices) == timeout && GoesOn(me, rounds[|slices| - 1])
      ensures r.StillWaiting? ==> |slices| == |rounds| && (timeout != INFINITE ==> |rounds| < MaxRounds(timeout))
      ensures cell == CellAfter(me, rounds[..|slices|], old(cell))
    {
      var left: nat := timeout;
      slices := [];
      BudgetStart(timeout);
      while |slices| < |rounds|
        invariant |slices| <= |rounds| && OnBudget(timeout, left, slices)
        invariant forall i :: 0 <= i < |slices| ==> GoesOn(me, rounds[i])
        invariant cell == CellAfter(me, rounds[..|slices|], old(cell))
        decreases |rounds| - |slices|
      {
        var round := rounds[|slices|];
        BudgetTurn(timeout, left, slices);
        CellAfterOne(me, rounds, |slices|, old(cell));
        slices := slices + [Slice(left)];
        left := Rest(left);
        if round.Failed? {
          return Error(round.code), slices;
        }
        var won := Settle(me, round);
        if won {
          return Success, slices;
        }
        if left == 0 {
          return Timeout, slices;
        }
      }
      return StillWaiting, slices;
    }

    /** One round that did not fail: publish after an acquisition, or test, probe, claim and look again. */
    method Settle(me: nat, round: Round) returns (won: bool)
      requires !round.Failed?
      modifies this
      ensures won <==> Wins(me, round)
      ensures won <==>
        round.Acquired? ||
        (round.found != me && !round.alive && (round.over.Untouched? || round.over.other == me))
      ensures won ==> cell == me
      ensures round.TimedOut? && round.found == me ==> cell == round.found
      ensures round.TimedOut? && round.found != me && round.alive ==> cell == round.owner
      ensures round.TimedOut? && round.found != me && !round.alive && round.over.By? ==> cell == round.over.other
      ensures cell == CellAfter(me, [round], old(cell))
    {
      if round.Acquired? {
        cell := me;
        return true;
      }
      cell := round.found;
      if cell == me {
        return false;
      }
      cell := round.owner;
      if round.alive {
        return false;
      }
      cell := me;
      if round.over.By? { cell := round.over.other; }
      return cell == me;
    }
  }

  // ---- deadlines

  const MILLION: nat := 1_000_000
  const BILLION: nat := 1_000_000_000

  datatype Timespec = Timespec(sec: nat, nsec: nat)

  function Nanos(t: Timespec): nat { t.sec * BILLION + t.nsec }

  /** TimeWait's deadline: the clock reading plus the slice, with the nanoseconds carried over. */
  function Deadline(now: Timespec, ms: nat): (d: Timespec)
    requires now.nsec < BILLION
    ensures d.nsec < BILLION && Nanos(d) == Nanos(now) + ms * MILLION
  {
    var nsec := now.nsec + ms % 1000 * MILLION;
    assert ms * MILLION == (ms / 1000) * BILLION + ms % 1000 * MILLION;
    assert nsec == nsec / BILLION * BILLION + nsec % BILLION;
    Timespec(now.sec + (ms / 1000 + nsec / BILLION), nsec % BILLION)
  }
}
