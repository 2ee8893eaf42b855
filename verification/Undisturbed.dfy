/** The step system's poller, when nobody else runs, is the loop of
    `blockedPoll`: the steps of one batch add up to `HandleBatch`. */
module Undisturbed {
  import opened RingArithmetic
  import opened IocbPool
  import opened AioRing
  import opened Lifecycle
  import opened Machine

  ghost predicate CanStep(s: State) {
    s.poller.Handling? && PollSafe(s, EventStep)
  }

  /** `fuel` steps of the poller and of nobody else. */
  ghost function Alone(s: State, fuel: nat): (s': State)
    decreases fuel
  {
    if fuel == 0 || !CanStep(s) then s else Alone(HandleStep(s), fuel - 1)
  }

  lemma {:induction false} AloneAdd(s: State, a: nat, b: nat)
    ensures Alone(s, a + b) == Alone(Alone(s, a), b)
    decreases a
  {
    if a > 0 && CanStep(s) {
      AloneAdd(HandleStep(s), a - 1, b);
    } else if a > 0 {
      StuckStays(s, b);
    }
  }

  lemma StuckStays(s: State, b: nat)
    requires !CanStep(s)
    ensures Alone(s, b) == s
  {
  }

  lemma AloneNext(s: State, fuel: nat)
    requires CanStep(s)
    ensures Alone(s, fuel + 1) == Alone(HandleStep(s), fuel)
  {
  }

  /** The poller is about to handle an event that is not the sentinel. */
  ghost predicate AtEvent(s: State) {
    && s.poller.Handling? && s.poller.i < |s.poller.evts| && s.poller.stage == Top
    && s.cfg.blocking && Known(s.n, s.poller.evts)
    && s.n.blocks[s.poller.evts[s.poller.i].obj].fd != s.cfg.dumbFd
  }

  /** From the top of the loop to the claim of the data. */
  lemma FirstHalf(s: State)
    requires AtEvent(s)
    ensures var p := s.poller;
      var (n1, last1) := SyncStep(s.cfg, s.n, p.last, p.evts[p.i]);
      Alone(s, 3) == s.(n := ReportStep(n1, p.evts[p.i]), poller := p.(last := last1, stage := Claim))
  {
    hide ReportStep, SyncStep;
    var p := s.poller;
    var e := p.evts[p.i];
    var s1 := s.(poller := p.(stage := Sync));
    assert CanStep(s) && HandleStep(s) == s1;
    var (n1, last1) := SyncStep(s.cfg, s.n, p.last, e);
    FramesOf(s.cfg, s.n, p.last, e);
    var s2 := s.(n := n1, poller := p.(last := last1, stage := Report));
    assert CanStep(s1) && HandleStep(s1) == s2;
    var s3 := s.(n := ReportStep(n1, e), poller := p.(last := last1, stage := Claim));
    assert CanStep(s2) && HandleStep(s2) == s3;
    hide HandleStep, CanStep;
    assert Alone(s3, 0) == s3;
    AloneNext(s2, 0);
    AloneNext(s1, 1);
    AloneNext(s, 2);
  }

  lemma FramesOf(cfg: Config, n: Native, last: int, e: Event)
    requires e.obj in n.blocks
    ensures var n1 := SyncStep(cfg, n, last, e).0;
      n1.blocks == n.blocks && n1.pool == n.pool && ReportStep(n1, e).blocks == n.blocks &&
        ReportStep(n1, e).pool == n.pool
  {
  }

  /** What the steps from the claim of the data on do to the native state. */
  function AfterClaim(cfg: Config, n: Native, e: Event): (n': Native)
    requires Indexed(n.pool) && e.obj in n.blocks
  {
    var (n2, data) := TakeStep(n, e);
    match data
    case Null => LatchStep(n2)
    case Callback(ref) => UnrefStep(ReleaseStep(cfg, NotifyStep(PutStep(n2, e.obj), ref), 1), ref)
    case Sentinel => PutStep(n2, e.obj)
  }

  /** From the claim of the data to the top of the loop for the next event. */
  lemma SecondHalf(s: State) returns (fuel: nat)
    requires AtClaim(s)
    ensures Alone(s, fuel) == AfterClaimed(s)
  {
    hide Alone, AfterClaimed;
    var p := s.poller;
    match s.n.blocks[p.evts[p.i].obj].data
    case Null =>
      NullAlone(s);
      fuel := 1;
    case Sentinel =>
      SentinelAlone(s);
      fuel := 2;
    case Callback(ref) =>
      CallbackAlone(s, ref);
      fuel := 5;
  }

  ghost predicate AtClaim(s: State) {
    s.poller.Handling? && s.poller.i < |s.poller.evts| && s.poller.stage == Claim && Known(s.n, s.poller.evts)
  }

  ghost function AfterClaimed(s: State): (s': State)
    requires AtClaim(s)
  {
    var p := s.poller;
    s.(n := AfterClaim(s.cfg, s.n, p.evts[p.i]), poller := p.(i := p.i + 1, stage := Top))
  }

  lemma NullAlone(s: State)
    requires AtClaim(s) && s.n.blocks[s.poller.evts[s.poller.i].obj].data == Null
    ensures Alone(s, 1) == AfterClaimed(s)
  {
    assert CanStep(s) && HandleStep(s) == AfterClaimed(s);
    hide HandleStep, CanStep, AfterClaimed;
    AloneNext(s, 0);
  }

  lemma SentinelAlone(s: State)
    requires AtClaim(s) && s.n.blocks[s.poller.evts[s.poller.i].obj].data == Sentinel
    ensures Alone(s, 2) == AfterClaimed(s)
  {
    ClaimStep(s);
    var s1 := HandleStep(s);
    PutBackStep(s1);
    assert HandleStep(s1) == AfterClaimed(s) by { hide HandleStep; }
    hide HandleStep, CanStep, AfterClaimed, AtClaim;
    AloneNext(s1, 0);
    AloneNext(s, 1);
  }

  lemma CallbackAlone(s: State, ref: Ref)
    requires AtClaim(s) && s.n.blocks[s.poller.evts[s.poller.i].obj].data == Callback(ref)
    ensures Alone(s, 5) == AfterClaimed(s)
  {
    ClaimStep(s);
    hide HandleStep, CanStep;
    var s1 := HandleStep(s);
    DeliverAlone(s1, ref);
    assert Delivered(s1, ref) == AfterClaimed(s) by { hide Alone; }
    hide Delivered, AfterClaimed, AtClaim;
    AloneNext(s, 4);
  }

  lemma ClaimStep(s: State)
    requires AtClaim(s) && s.n.blocks[s.poller.evts[s.poller.i].obj].data != Null
    ensures CanStep(s)
    ensures var (n, data) := TakeStep(s.n, s.poller.evts[s.poller.i]);
      HandleStep(s) == s.(n := n, poller := s.poller.(stage := PutBack(data)))
    ensures CanStep(HandleStep(s))
  {
  }

  lemma PutBackStep(s: State)
    requires CanStep(s) && s.poller.stage.PutBack?
    ensures var p := s.poller;
      var next := if p.stage.data.Callback? then p.(stage := Notify(p.stage.data.ref)) else p.(i := p.i + 1,
        stage := Top);
      HandleStep(s) == s.(n := PutStep(s.n, p.evts[p.i].obj), poller := next)
    ensures CanStep(HandleStep(s))
  {
    hide Put;
    PutIndexed(s.n.pool, s.poller.evts[s.poller.i].obj);
  }

  lemma NotifyReleaseStep(s: State, ref: Ref)
    requires CanStep(s) && (s.poller.stage == Notify(ref) || s.poller.stage == Release(ref))
    ensures s.poller.stage == Notify(ref) ==>
      HandleStep(s) == s.(n := NotifyStep(s.n, ref), poller := s.poller.(stage := Release(ref)))
    ensures s.poller.stage == Release(ref) ==>
      HandleStep(s) == s.(n := ReleaseStep(s.cfg, s.n, 1), poller := s.poller.(stage := Unref(ref)))
    ensures CanStep(HandleStep(s))
  {
  }

  lemma LastStep(s: State, ref: Ref)
    requires CanStep(s) && s.poller.stage == Unref(ref)
    ensures HandleStep(s) == s.(n := UnrefStep(s.n, ref), poller := s.poller.(i := s.poller.i + 1, stage := Top))
  {
  }

  ghost function Delivered(s: State, ref: Ref): (s': State)
    requires CanStep(s) && s.poller.stage == PutBack(Callback(ref))
  {
    var p := s.poller;
    s.(n := UnrefStep(ReleaseStep(s.cfg, NotifyStep(PutStep(s.n, p.evts[p.i].obj), ref), 1), ref),
      poller := p.(i := p.i + 1, stage := Top))
  }

  /** From `putIOCB` to `DeleteGlobalRef`. */
  lemma DeliverAlone(s: State, ref: Ref)
    requires CanStep(s) && s.poller.stage == PutBack(Callback(ref))
    ensures Alone(s, 4) == Delivered(s, ref)
  {
    PutBackStep(s);
    var s1 := HandleStep(s);
    hide HandleStep, PutStep, NotifyStep, ReleaseStep, UnrefStep;
    NotifyReleaseStep(s1, ref);
    var s2 := HandleStep(s1);
    NotifyReleaseStep(s2, ref);
    var s3 := HandleStep(s2);
    LastStep(s3, ref);
    var s4 := HandleStep(s3);
    assert s4 == Delivered(s, ref);
    hide CanStep, Delivered;
    AloneNext(s3, 0);
    AloneNext(s2, 1);
    AloneNext(s1, 2);
    AloneNext(s, 3);
  }

  lemma PutIndexed(p: Pool, i: Iocb)
    requires Indexed(p)
    ensures Indexed(Put(p, i))
  {
  }

  lemma EventInHalves(cfg: Config, n: Native, last: int, e: Event)
    requires Indexed(n.pool) && e.obj in n.blocks
    ensures var (n1, last1) := SyncStep(cfg, n, last, e);
      && e.obj in n1.blocks && Indexed(ReportStep(n1, e).pool) && e.obj in ReportStep(n1, e).blocks
      && HandleEvent(cfg, n, last, e) == (AfterClaim(cfg, ReportStep(n1, e), e), last1)
  {
    hide Put;
    FramesOf(cfg, n, last, e);
  }

  lemma EventAlone(s: State) returns (fuel: nat)
    requires AtEvent(s)
    ensures Alone(s, fuel) == AfterEvent(s)
  {
    hide Alone, HandleStep, CanStep, AfterClaim, SyncStep, ReportStep, HandleEvent;
    var p := s.poller;
    var e := p.evts[p.i];
    var (n1, last1) := SyncStep(s.cfg, s.n, p.last, e);
    FramesOf(s.cfg, s.n, p.last, e);
    EventInHalves(s.cfg, s.n, p.last, e);
    FirstHalf(s);
    var s3 := s.(n := ReportStep(n1, e), poller := p.(last := last1, stage := Claim));
    assert AtClaim(s3);
    var more := SecondHalf(s3);
    assert AfterClaimed(s3) == AfterEvent(s);
    hide AtEvent, Known, AtClaim, AfterClaimed, AfterEvent;
    fuel := 3 + more;
    AloneAdd(s, 3, more);
  }

  ghost function AfterEvent(s: State): (s': State)
    requires AtEvent(s)
  {
    var p := s.poller;
    var (n', last') := HandleEvent(s.cfg, s.n, p.last, p.evts[p.i]);
    s.(n := n', poller := p.(i := p.i + 1, last := last'))
  }

  /** `fuel` lone steps lead to the end of the batch, or to the poller's stop. */
  ghost predicate EndsWith(s: State, fuel: nat, last: int, n: Native, running: bool)
    requires s.poller.Handling?
  {
    Alone(s, fuel) == s.(n := n, poller := if running then Handling(s.poller.evts, |s.poller.evts|, last,
      Top) else Stopping)
  }

  lemma {:induction false} BatchSteps(s: State) returns (fuel: nat, last: int)
    requires s.poller.Handling? && s.poller.stage == Top && s.poller.i <= |s.poller.evts| && s.cfg.blocking
    requires Known(s.n, s.poller.evts)
    ensures Known(s.n, s.poller.evts[s.poller.i..])
    ensures var (n', running) := HandleBatch(s.cfg, s.n, s.poller.last, s.poller.evts[s.poller.i..]);
      EndsWith(s, fuel, last, n', running)
    decreases |s.poller.evts| - s.poller.i
  {
    var p := s.poller;
    var evts := p.evts;
    if p.i == |evts| {
      assert evts[p.i..] == [];
      fuel, last := 0, p.last;
    } else {
      var e := evts[p.i];
      assert evts[p.i..][0] == e && evts[p.i..][1..] == evts[p.i + 1..];
      if s.n.blocks[e.obj].fd == s.cfg.dumbFd {
        StopAlone(s);
        BatchStops(s.cfg, s.n, p.last, evts[p.i..]);
        fuel, last := 1, p.last;
      } else {
        var one := EventAlone(s);
        BatchGoesOn(s.cfg, s.n, p.last, evts[p.i..]);
        hide CanStep, HandleStep, Alone;
        var (n1, last1) := HandleEvent(s.cfg, s.n, p.last, e);
        var s1 := s.(n := n1, poller := Handling(evts, p.i + 1, last1, Top));
        assert AfterEvent(s) == s1;
        hide HandleEvent, HandleBatch;
        var more: nat;
        more, last := BatchSteps(s1);
        AloneAdd(s, one, more);
        fuel := one + more;
      }
    }
  }

  /** A whole batch: when the poller runs alone it ends with exactly the state
      that the sequential loop computes, and stops exactly when that loop does. */
  lemma BatchAlone(s: State)
    requires s.poller.Handling? && s.poller.stage == Top && s.poller.i <= |s.poller.evts| && s.cfg.blocking
    requires Known(s.n, s.poller.evts)
    ensures Known(s.n, s.poller.evts[s.poller.i..])
    ensures var (n', running) := HandleBatch(s.cfg, s.n, s.poller.last, s.poller.evts[s.poller.i..]);
      exists fuel: nat, last: int :: EndsWith(s, fuel, last, n', running)
  {
    var fuel, last := BatchSteps(s);
    hide HandleBatch, EndsWith;
  }

  lemma StopAlone(s: State)
    requires s.poller.Handling? && s.poller.stage == Top && s.poller.i < |s.poller.evts| && s.cfg.blocking &&
      Known(s.n, s.poller.evts)
    requires s.n.blocks[s.poller.evts[s.poller.i].obj].fd == s.cfg.dumbFd
    ensures Alone(s, 1) == s.(n := PutStep(s.n, s.poller.evts[s.poller.i].obj), poller := Stopping)
  {
    hide Put;
    assert CanStep(s);
    var s1 := s.(n := PutStep(s.n, s.poller.evts[s.poller.i].obj), poller := Stopping);
    assert HandleStep(s) == s1;
    hide HandleStep, CanStep;
    assert Alone(s1, 0) == s1;
    AloneNext(s, 0);
  }

  // ----- The array poll -----

  ghost predicate AtArrayEvent(s: State) {
    s.poller.Handling? && s.poller.i < |s.poller.evts| && s.poller.stage == Top && !s.cfg.blocking &&
      Known(s.n, s.poller.evts)
  }

  ghost function AfterArrayEvent(s: State): (s': State)
    requires AtArrayEvent(s)
  {
    var p := s.poller;
    s.(n := PollEvent(s.n, p.i, p.evts[p.i]), poller := p.(i := p.i + 1))
  }

  /** Up to the look at `data`. */
  lemma ArrayReportAlone(s: State)
    requires AtArrayEvent(s)
    ensures var p := s.poller; var s2 := s.(n := ReportStep(s.n, p.evts[p.i]), poller := p.(stage := ArrayStore));
      Alone(s, 2) == s2 && CanStep(s2)
  {
    hide I32;
    var p := s.poller;
    var s1 := s.(poller := p.(stage := ArrayReport));
    var s2 := s.(n := ReportStep(s.n, p.evts[p.i]), poller := p.(stage := ArrayStore));
    assert CanStep(s) && HandleStep(s) == s1;
    assert CanStep(s1) && HandleStep(s1) == s2;
    assert CanStep(s2);
    hide CanStep, HandleStep;
    AloneNext(s1, 0);
    AloneNext(s, 1);
  }

  /** From there, for a callback or for none. */
  lemma ArrayStoreAlone(s: State) returns (fuel: nat)
    requires CanStep(s) && s.poller.stage == ArrayStore
    ensures var p := s.poller; var e := p.evts[p.i]; var data := s.n.blocks[e.obj].data;
      var n := if data.Callback? then UnrefStep(StoreStep(s.n, p.i, data.ref), data.ref) else s.n;
      Indexed(n.pool) && Alone(s, fuel) == s.(n := PutStep(n, e.obj), poller := p.(i := p.i + 1, stage := Top))
  {
    hide Put;
    var p := s.poller;
    var e := p.evts[p.i];
    var data := s.n.blocks[e.obj].data;
    var s1 := HandleStep(s);
    assert CanStep(s1);
    var s2 := HandleStep(s1);
    if data.Callback? {
      assert CanStep(s2);
      var s3 := HandleStep(s2);
      hide CanStep, HandleStep;
      AloneNext(s2, 0);
      AloneNext(s1, 1);
      AloneNext(s, 2);
      fuel := 3;
    } else {
      hide CanStep, HandleStep;
      AloneNext(s1, 0);
      AloneNext(s, 1);
      fuel := 2;
    }
  }

  lemma ArrayEventAlone(s: State) returns (fuel: nat)
    requires AtArrayEvent(s)
    ensures Alone(s, fuel) == AfterArrayEvent(s)
  {
    ArrayReportAlone(s);
    var s2 := s.(n := ReportStep(s.n, s.poller.evts[s.poller.i]), poller := s.poller.(stage := ArrayStore));
    hide Alone, CanStep, HandleStep, PutStep, I32;
    var more := ArrayStoreAlone(s2);
    fuel := 2 + more;
    assert Alone(s2, more) == AfterArrayEvent(s);
    hide *;
    AloneAdd(s, 2, more);
  }

  lemma {:induction false} ArraySteps(s: State, count: nat) returns (fuel: nat)
    requires s.poller.Handling? && s.poller.i == 0 && s.poller.stage == Top && !s.cfg.blocking
    requires Known(s.n, s.poller.evts) && count <= |s.poller.evts|
    ensures Alone(s, fuel) == s.(n := PollBatch(s.n, s.poller.evts, count), poller := s.poller.(i := count))
  {
    hide PollEvent;
    if count == 0 {
      fuel := 0;
    } else {
      var before := ArraySteps(s, count - 1);
      var s1 := s.(n := PollBatch(s.n, s.poller.evts, count - 1), poller := s.poller.(i := count - 1));
      var one := ArrayEventAlone(s1);
      hide Alone;
      AloneAdd(s, before, one);
      fuel := before + one;
    }
  }

  /** The same for `poll(callbacks, min, max)`: the steps of a lone poller over a
      reaped batch add up to `PollBatch`. */
  lemma ArrayBatchAlone(s: State)
    requires s.poller.Handling? && s.poller.i == 0 && s.poller.stage == Top && !s.cfg.blocking &&
      Known(s.n, s.poller.evts)
    ensures exists fuel: nat ::
      Alone(s, fuel) == s.(n := PollBatch(s.n, s.poller.evts, |s.poller.evts|),
        poller := s.poller.(i := |s.poller.evts|))
  {
    var fuel := ArraySteps(s, |s.poller.evts|);
    hide Alone, PollBatch;
  }
}
