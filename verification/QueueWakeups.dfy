/** The tokens of the two wake-up semaphores, counted over steps and runs. */
module QueueWakeups {
  import opened Basics
  import opened RingMath
  import opened QueueMachine
  import opened QueueSafety

  /** A writer posts for readers, a reader or a clearer for writers. */
  predicate PostsForReaders(s: State, st: Step) { st.Go? && At(s, st.who).WSignal? }

  predicate PostsForWriters(s: State, st: Step) { st.Go? && (At(s, st.who).RSignal? || At(s, st.who).CSignal?) }

  predicate WakesReader(s: State, st: Step) { st.Wake? && At(s, st.who).RWait? }

  predicate WakesWriter(s: State, st: Step) { st.Wake? && At(s, st.who).WWait? }

  /** Below the cap, if there is one. */
  predicate Counts(c: Config, v: nat) { c.cap == 0 || v < c.cap }

  lemma PostIs(c: Config, v: nat)
    requires c.cap == 0 || v <= c.cap
    ensures Post(c, v) == v + Count(Counts(c, v))
  {
  }

  lemma WritePosts(c: Config, s: State, t: Tid)
    requires c.n > 0 && InWrite(At(s, t)) && (c.cap == 0 || s.semWaitWrite <= c.cap)
    ensures var s' := WriteGo(c, s, t);
      && s'.semWaitRead == s.semWaitRead
      && s'.semWaitWrite == s.semWaitWrite + Count(At(s, t).WSignal? && Counts(c, s.semWaitWrite))
  {
    PostIs(c, s.semWaitWrite);
  }

  lemma ReadPosts(c: Config, s: State, t: Tid)
    requires c.n > 0 && InRead(At(s, t)) && (c.cap == 0 || s.semWaitRead <= c.cap)
    ensures var s' := ReadGo(c, s, t);
      && s'.semWaitWrite == s.semWaitWrite
      && s'.semWaitRead == s.semWaitRead + Count(At(s, t).RSignal? && Counts(c, s.semWaitRead))
  {
    PostIs(c, s.semWaitRead);
  }

  lemma ClearPosts(c: Config, s: State, t: Tid)
    requires c.n > 0 && InClear(At(s, t)) && (c.cap == 0 || s.semWaitRead <= c.cap)
    ensures var s' := ClearGo(c, s, t);
      && s'.semWaitWrite == s.semWaitWrite
      && s'.semWaitRead == s.semWaitRead + Count(At(s, t).CSignal? && Counts(c, s.semWaitRead))
  {
    PostIs(c, s.semWaitRead);
  }

  /** A step adds a token exactly by a post below the cap, and takes one exactly by a wait that it wakes. */
  lemma WakeupFlow(c: Config, s: State, st: Step)
    requires c.n > 0 && Enabled(c, s, st) && (c.cap > 0 ==> s.semWaitWrite <= c.cap && s.semWaitRead <= c.cap)
    ensures Do(c, s, st).semWaitWrite == s.semWaitWrite
      + Count(PostsForReaders(s, st) && (c.cap == 0 || s.semWaitWrite < c.cap)) - Count(WakesReader(s, st))
    ensures Do(c, s, st).semWaitRead == s.semWaitRead
      + Count(PostsForWriters(s, st) && (c.cap == 0 || s.semWaitRead < c.cap)) - Count(WakesWriter(s, st))
  {
    if st.Go? {
      if InWrite(At(s, st.who)) { WritePosts(c, s, st.who); }
      else if InRead(At(s, st.who)) { ReadPosts(c, s, st.who); }
      else { ClearPosts(c, s, st.who); }
    }
  }

  /** The step happens in the state that the steps before it lead to. */
  ghost predicate Happens(c: Config, steps: seq<Step>, k: nat)
    requires c.n > 0 && k < |steps|
  {
    var s := Exec(c, Init(c), steps[..k]);
    Enabled(c, s, steps[k]) && Sound(s, steps[k])
  }

  datatype Tally = Tally(readerPosts: nat, writerPosts: nat, readerWakes: nat, writerWakes: nat)

  /** Posts and wake-ups of a run from the start. */
  ghost function Tallied(c: Config, steps: seq<Step>): Tally
    requires c.n > 0
  {
    if steps == [] then Tally(0, 0, 0, 0)
    else
      var n := |steps| - 1;
      var t, s, st := Tallied(c, steps[..n]), Exec(c, Init(c), steps[..n]), steps[n];
      if !Happens(c, steps, n) then t
      else Tally(t.readerPosts + Count(PostsForReaders(s, st)), t.writerPosts + Count(PostsForWriters(s, st)),
                 t.readerWakes + Count(WakesReader(s, st)), t.writerWakes + Count(WakesWriter(s, st)))
  }

  /**
   Over every run the count of a wake-up semaphore is what it started with, and what was posted, less the waits it
   ended; with a cap it never exceeds that cap, nor what it would be without.
   */
  lemma {:induction false} WakeupsConserved(c: Config, steps: seq<Step>)
    requires c.n > 0
    ensures var s, t := Exec(c, Init(c), steps), Tallied(c, steps);
      && (c.cap == 0 ==>
            s.semWaitWrite + t.readerWakes == 1 + t.readerPosts && s.semWaitRead + t.writerWakes == 1 + t.writerPosts)
      && (c.cap > 0 ==> s.semWaitWrite <= c.cap && s.semWaitRead <= c.cap)
      && s.semWaitWrite + t.readerWakes <= 1 + t.readerPosts && s.semWaitRead + t.writerWakes <= 1 + t.writerPosts
  {
    if steps != [] {
      var n := |steps| - 1;
      WakeupsConserved(c, steps[..n]);
      if Happens(c, steps, n) { WakeupFlow(c, Exec(c, Init(c), steps[..n]), steps[n]); }
    }
  }
}
