/** What the steps of each kind of actor never touch. */
module Frames {
  import opened World
  import Actions
  import opened Protocol

  lemma SystemFrame(w: World, s: SystemStep, w': World)
    requires SystemNext(w, s, w')
    ensures !s.Crash? ==>
      && w'.timers == w.timers && w'.retry == w.retry && w'.conversions == w.conversions
      && w'.states == w.states && w'.leases == w.leases && w'.leaseObjs == w.leaseObjs
      && w'.deleting == w.deleting && w'.creators == w.creators && w'.readers == w.readers
      && w'.deleters == w.deleters
    ensures w'.hist.added == w.hist.added && w'.hist.settled == w.hist.settled && w'.hist.acked == w.hist.acked
    ensures s.Crash? ==> w' == Actions.Crashed(w)
  {}

  lemma CreateFrame(w: World, s: CreateStep, w': World)
    requires CreateNext(w, s, w')
    ensures w'.rows == w.rows && w'.queue == w.queue && w'.timers == w.timers && w'.retry == w.retry
      && w'.conversions == w.conversions && w'.states == w.states && w'.leases == w.leases
      && w'.leaseObjs == w.leaseObjs && w'.deleting == w.deleting && w'.workers == w.workers
      && w'.readers == w.readers && w'.deleters == w.deleters
    ensures w'.hist.added == w.hist.added && w'.hist.settled == w.hist.settled && w'.hist.acked == w.hist.acked
  {}

  lemma RecordFrame(w: World, s: RecordStep, w': World)
    requires RecordNext(w, s, w')
    ensures w'.disk == w.disk && w'.timers == w.timers && w'.retry == w.retry && w'.conversions == w.conversions
      && w'.states == w.states && w'.leases == w.leases && w'.leaseObjs == w.leaseObjs
      && w'.deleting == w.deleting && w'.workers == w.workers && w'.readers == w.readers
      && w'.deleters == w.deleters
    ensures w'.hist.settled == w.hist.settled && w'.hist.torn == w.hist.torn && w'.hist.acked == w.hist.acked
  {}

  lemma WorkFrame(w: World, s: WorkStep, w': World)
    requires WorkNext(w, s, w')
    ensures w'.disk == w.disk && w'.timers == w.timers && w'.retry == w.retry && w'.leases == w.leases
      && w'.leaseObjs == w.leaseObjs && w'.deleting == w.deleting && w'.creators == w.creators
      && w'.readers == w.readers && w'.deleters == w.deleters
    ensures w'.hist.added == w.hist.added && w'.hist.settled == w.hist.settled && w'.hist.torn == w.hist.torn
      && w'.hist.acked == w.hist.acked
  {}

  lemma ConvertFrame(w: World, s: ConvertStep, w': World)
    requires ConvertNext(w, s, w')
    ensures w'.queue == w.queue && w'.timers == w.timers && w'.retry == w.retry && w'.leases == w.leases
      && w'.leaseObjs == w.leaseObjs && w'.deleting == w.deleting && w'.creators == w.creators
      && w'.readers == w.readers && w'.deleters == w.deleters
    ensures w'.hist.added == w.hist.added && w'.hist.torn == w.hist.torn && w'.hist.acked == w.hist.acked
  {}

  lemma RetryFrame(w: World, s: RetryStep, w': World)
    requires RetryNext(w, s, w')
    ensures w'.disk == w.disk && w'.queue == w.queue && w'.timers == w.timers && w'.retry == w.retry
      && w'.conversions == w.conversions && w'.states == w.states && w'.leases == w.leases
      && w'.leaseObjs == w.leaseObjs && w'.deleting == w.deleting && w'.creators == w.creators
      && w'.readers == w.readers && w'.deleters == w.deleters
    ensures w'.hist.added == w.hist.added && w'.hist.torn == w.hist.torn && w'.hist.acked == w.hist.acked
  {}

  lemma BackoffFrame(w: World, s: BackoffStep, w': World)
    requires BackoffNext(w, s, w')
    ensures w'.rows == w.rows && w'.disk == w.disk && w'.conversions == w.conversions && w'.states == w.states
      && w'.leases == w.leases && w'.leaseObjs == w.leaseObjs && w'.deleting == w.deleting
      && w'.creators == w.creators && w'.readers == w.readers && w'.deleters == w.deleters
    ensures w'.hist.added == w.hist.added && w'.hist.settled == w.hist.settled && w'.hist.torn == w.hist.torn
      && w'.hist.acked == w.hist.acked
  {}

  lemma ReadFrame(w: World, s: ReadStep, w': World)
    requires ReadNext(w, s, w')
    ensures w'.rows == w.rows && w'.disk == w.disk && w'.queue == w.queue && w'.timers == w.timers
      && w'.retry == w.retry && w'.conversions == w.conversions && w'.states == w.states
      && w'.deleting == w.deleting && w'.creators == w.creators && w'.workers == w.workers
      && w'.deleters == w.deleters
    ensures w'.hist.added == w.hist.added && w'.hist.settled == w.hist.settled && w'.hist.torn == w.hist.torn
      && w'.hist.acked == w.hist.acked
  {}

  lemma DeleteFrame(w: World, s: DeleteStep, w': World)
    requires DeleteNext(w, s, w')
    ensures w'.disk == w.disk && w'.queue == w.queue && w'.timers == w.timers && w'.retry == w.retry
      && w'.conversions == w.conversions && w'.states == w.states && w'.leases == w.leases
      && w'.leaseObjs == w.leaseObjs && w'.creators == w.creators && w'.workers == w.workers
      && w'.readers == w.readers
    ensures w'.hist.added == w.hist.added && w'.hist.settled == w.hist.settled && w'.hist.torn == w.hist.torn
  {}

  lemma WaitFrame(w: World, s: WaitStep, w': World)
    requires WaitNext(w, s, w')
    ensures w'.rows == w.rows && w'.disk == w.disk && w'.queue == w.queue && w'.timers == w.timers
      && w'.retry == w.retry && w'.conversions == w.conversions && w'.states == w.states
      && w'.leases == w.leases && w'.leaseObjs == w.leaseObjs && w'.deleting == w.deleting
      && w'.creators == w.creators && w'.workers == w.workers && w'.readers == w.readers
    ensures w'.hist.added == w.hist.added && w'.hist.settled == w.hist.settled && w'.hist.torn == w.hist.torn
      && w'.hist.acked == w.hist.acked
  {}

  lemma EraseFrame(w: World, s: EraseStep, w': World)
    requires EraseNext(w, s, w')
    ensures w'.queue == w.queue && w'.timers == w.timers && w'.retry == w.retry
      && w'.conversions == w.conversions && w'.states == w.states && w'.leases == w.leases
      && w'.leaseObjs == w.leaseObjs && w'.deleting == w.deleting && w'.creators == w.creators
      && w'.workers == w.workers && w'.readers == w.readers
    ensures w'.hist.added == w.hist.added && w'.hist.settled == w.hist.settled && w'.hist.acked == w.hist.acked
  {}
}
