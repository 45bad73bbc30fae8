/** The scenarios of client_test.go, stated for every environment that
    matches them. */
module ClientScenarios {

  import opened Wrappers
  import opened ChunkPlanner
  import opened Client

  /** 100 elements in chunks of 13: seven full chunks at offsets 0, 13, ...,
      78, then the remainder `[91, 100)` of 9 elements. */
  lemma PlanOf100By13()
    ensures |Chunks(100, 13).full| == 7
    ensures forall i :: 0 <= i < 7 ==> Chunks(100, 13).full[i] == Window(13 * i, 13 * i + 13)
    ensures Chunks(100, 13).rest == Some(Window(91, 100))
    ensures |Windows(Chunks(100, 13))| == 8
  {
    ChunksClosedForm(100, 13);
  }

  /** "all ok": every tick arrives and every call succeeds; 8 calls, nil. */
  lemma AllOkBy13<E>(waits: nat -> Wait, process: nat -> Option<E>)
    requires forall j :: waits(j) == Tick
    requires forall j :: process(j) == None
    ensures Expected(Chunks(100, 13), waits, process) == Run(None, 8)
  {
    PlanOf100By13();
    AllSucceed(Chunks(100, 13), waits, process);
  }

  /** "process err on take num 5": the first four calls succeed and the
      fifth fails; that error is returned after exactly 5 calls. */
  lemma FifthCallFails<E>(waits: nat -> Wait, process: nat -> Option<E>, e: E)
    requires forall j :: waits(j) == Tick
    requires forall j :: 0 <= j < 4 ==> process(j) == None
    requires process(4) == Some(e)
    ensures Expected(Chunks(100, 13), waits, process) == Run(Some(Failed(e)), 5)
  {
    PlanOf100By13();
    FailFast(Chunks(100, 13), waits, process, 4);
  }

  /** "cancel ctx": the context is already cancelled when the dispatch
      starts; the context's error is returned and `Process` is never
      called. */
  lemma CanceledBeforeFirstTick<E>(waits: nat -> Wait, process: nat -> Option<E>)
    requires waits(0) != Tick
    ensures Expected(Chunks(100, 12), waits, process) == Run(Some(Canceled), 0)
  {
    ChunksClosedForm(100, 12);
    CancelStops(Chunks(100, 12), waits, process, 0);
  }

  /** "zero batch size": whatever the batch length, nil and no calls. */
  lemma ZeroBatchSize<E>(n: nat, waits: nat -> Wait, process: nat -> Option<E>)
    ensures Expected(Chunks(n, 0), waits, process) == Run(None, 0)
  {
    AllSucceed(Chunks(n, 0), waits, process);
  }
}
