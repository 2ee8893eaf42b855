/** Which parts of the invariant survive which changes. */
module Frames {
  import opened Options
  import opened IocbPool
  import opened AioRing
  import opened Lifecycle
  import opened Trace
  import opened Machine
  import opened Invariant

  ghost predicate Carries(own: Owners, i: Iocb) {
    i in own && Carrying(own[i])
  }

  ghost predicate Awaits(own: Owners, i: Iocb) {
    i in own && Uncompleted(own[i])
  }

  /** The same blocks carry the same data, and no completed one is pending again. */
  ghost predicate SameCargo(blocks: map<Iocb, Block>, own: Owners, blocks': map<Iocb, Block>, own': Owners) {
    && (forall i :: Carries(own, i) <==> Carries(own', i))
    && (forall i :: Carries(own, i) ==> i in blocks && i in blocks' && blocks[i] == blocks'[i])
    && (forall i :: Awaits(own', i) ==> Awaits(own, i))
  }

  lemma CargoFrame(cfg: Config, blocks: map<Iocb, Block>, own: Owners, blocks': map<Iocb, Block>, own': Owners,
                   sentinel: Option<Iocb>, pref: Option<Ref>, live: set<Ref>, nextRef: Ref, completed: seq<Completion>)
    requires SameCargo(blocks, own, blocks', own') && own'.Keys <= blocks'.Keys
    requires DataPart(cfg, blocks, own, sentinel)
    requires RefPart(blocks, own, pref, live, nextRef)
    requires OncePart(blocks, own, completed, nextRef)
    ensures DataPart(cfg, blocks', own', sentinel)
    ensures RefPart(blocks', own', pref, live, nextRef)
    ensures OncePart(blocks', own', completed, nextRef)
  {
    hide RefsOnce;
    forall i | i in own' && Carrying(own'[i]) ensures DataFits(cfg, blocks'[i], sentinel == Some(i)) {
      assert Carries(own', i) && Carries(own, i);
    }
    RefFrame(blocks, own, blocks', own', pref, live, nextRef);
    forall i, k | 0 <= k < |completed| ensures !AwaitsCompletion(blocks', own', i, completed[k].data) {
      assert !AwaitsCompletion(blocks, own, i, completed[k].data);
      if Awaits(own', i) {
        assert Awaits(own, i) && Carries(own, i);
      }
    }
  }

  /** The same references are carried by the same blocks. */
  lemma RefSame(blocks: map<Iocb, Block>, own: Owners, blocks': map<Iocb, Block>, own': Owners,
                pref: Option<Ref>, live: set<Ref>, nextRef: Ref, nextRef': Ref)
    requires forall i, r :: CarriesRef(blocks', own', i, r) <==> CarriesRef(blocks, own, i, r)
    requires RefPart(blocks, own, pref, live, nextRef) && nextRef <= nextRef'
    ensures RefPart(blocks', own', pref, live, nextRef')
  {
    forall r | r in live && pref != Some(r) ensures exists i :: CarriesRef(blocks', own', i, r) {
      var i :| CarriesRef(blocks, own, i, r);
      assert CarriesRef(blocks', own', i, r);
    }
  }

  lemma RefFrame(blocks: map<Iocb, Block>, own: Owners, blocks': map<Iocb, Block>, own': Owners,
                 pref: Option<Ref>, live: set<Ref>, nextRef: Ref)
    requires SameCargo(blocks, own, blocks', own')
    requires RefPart(blocks, own, pref, live, nextRef)
    ensures RefPart(blocks', own', pref, live, nextRef)
  {
    hide RefPart;
    forall i, r ensures CarriesRef(blocks', own', i, r) <==> CarriesRef(blocks, own, i, r) {
      assert Carries(own, i) <==> Carries(own', i);
    }
    RefSame(blocks, own, blocks', own', pref, live, nextRef, nextRef);
  }

  /** A reference and its block leave the accounts together. */
  lemma RefDropped(blocks: map<Iocb, Block>, own: Owners, own': Owners, i: Iocb, r: Ref,
                   pref: Option<Ref>, live: set<Ref>, nextRef: Ref)
    requires RefPart(blocks, own, pref, live, nextRef) && CarriesRef(blocks, own, i, r)
    requires forall j :: j != i ==> (Carries(own', j) <==> Carries(own, j))
    requires !Carries(own', i)
    ensures RefPart(blocks, own', pref, live - {r}, nextRef)
  {
    forall j, q ensures CarriesRef(blocks, own', j, q) <==> CarriesRef(blocks, own, j, q) && j != i {
      assert j != i ==> (Carries(own', j) <==> Carries(own, j));
    }
    forall q | q in live - {r} && pref != Some(q) ensures exists j :: CarriesRef(blocks, own', j, q) {
      var j :| CarriesRef(blocks, own, j, q);
      assert CarriesRef(blocks, own', j, q);
    }
  }

  /** The poller takes the reference out of its block. */
  lemma RefClaimed(blocks: map<Iocb, Block>, own: Owners, blocks': map<Iocb, Block>, own': Owners, i: Iocb, r: Ref,
                   live: set<Ref>, nextRef: Ref)
    requires RefPart(blocks, own, None, live, nextRef) && CarriesRef(blocks, own, i, r)
    requires forall j :: j != i ==> (Carries(own', j) <==> Carries(own, j))
    requires forall j :: j != i && j in blocks ==> j in blocks' && blocks'[j] == blocks[j]
    requires forall j :: j in blocks' ==> j in blocks
    requires !Carries(own', i)
    ensures RefPart(blocks', own', Some(r), live, nextRef)
  {
    forall j, q ensures CarriesRef(blocks', own', j, q) <==> CarriesRef(blocks, own, j, q) && j != i {
      assert j != i ==> (Carries(own', j) <==> Carries(own, j));
    }
    forall q | q in live && q != r ensures exists j :: CarriesRef(blocks', own', j, q) {
      var j :| CarriesRef(blocks, own, j, q);
      assert CarriesRef(blocks', own', j, q);
    }
  }

  /** A fresh reference is stored in a block that carried nothing. */
  lemma RefStored(blocks: map<Iocb, Block>, own: Owners, blocks': map<Iocb, Block>, own': Owners, i: Iocb,
                  pref: Option<Ref>, live: set<Ref>, nextRef: Ref)
    requires RefPart(blocks, own, pref, live, nextRef) && !Carries(own, i)
    requires forall j :: j != i ==> (Carries(own', j) <==> Carries(own, j))
    requires forall j :: j != i && j in blocks ==> j in blocks' && blocks'[j] == blocks[j]
    requires forall j :: j in blocks' ==> j in blocks
    requires CarriesRef(blocks', own', i, nextRef)
    ensures RefPart(blocks', own', pref, live + {nextRef}, nextRef + 1)
  {
    forall j, q | j != i ensures CarriesRef(blocks', own', j, q) <==> CarriesRef(blocks, own, j, q) {
      assert Carries(own', j) <==> Carries(own, j);
    }
    assert nextRef !in live;
    forall q | q in live && pref != Some(q) ensures exists j :: CarriesRef(blocks', own', j, q) {
      var j :| CarriesRef(blocks, own, j, q);
      assert CarriesRef(blocks', own', j, q);
    }
  }

  /** A block that carried nothing now carries no reference. */
  lemma RefSkipped(blocks: map<Iocb, Block>, own: Owners, blocks': map<Iocb, Block>, own': Owners, i: Iocb,
                   pref: Option<Ref>, live: set<Ref>, nextRef: Ref, nextRef': Ref)
    requires RefPart(blocks, own, pref, live, nextRef) && !Carries(own, i) && nextRef <= nextRef'
    requires forall j :: j != i ==> (Carries(own', j) <==> Carries(own, j))
    requires forall j :: j != i && j in blocks ==> j in blocks' && blocks'[j] == blocks[j]
    requires forall j :: j in blocks' ==> j in blocks
    requires i in blocks' ==> !blocks'[i].data.Callback?
    ensures RefPart(blocks', own', pref, live, nextRef')
  {
    hide RefPart;
    forall j, q ensures CarriesRef(blocks', own', j, q) <==> CarriesRef(blocks, own, j, q) {
      assert j != i ==> (Carries(own', j) <==> Carries(own, j));
    }
    RefSame(blocks, own, blocks', own', pref, live, nextRef, nextRef');
  }

  /** The reaped and queued events do not see a block that somebody else holds. */
  lemma EventsFrame(cfg: Config, blocks: map<Iocb, Block>, own: Owners, i: Iocb, b: Block, queue: seq<Event>, p: Poller,
                    batches: seq<seq<Completion>>, completed: seq<Completion>)
    requires i in own && i in blocks && own[i] != InRing && own[i] != InBatch(false)
    requires Listed(own, queue, InRing) && Listed(own, Unclaimed(p), InBatch(false))
    requires QueuePart(blocks, queue, batches, completed)
    requires BatchPart(cfg, blocks, p, batches)
    ensures QueuePart(blocks[i := b], queue, batches, completed)
    ensures BatchPart(cfg, blocks[i := b], p, batches)
  {
    hide Flatten, Prev, StageData;
    assert DescribeAll(blocks[i := b], queue) == DescribeAll(blocks, queue);
    if p.Handling? {
      forall k | FirstUnclaimed(p.i, p.stage) <= k < |p.evts| ensures p.evts[k].obj != i {
        assert p.evts[k] == Unclaimed(p)[k - FirstUnclaimed(p.i, p.stage)];
      }
    }
  }

  /** The number of admitted threads follows each thread's own move. */
  lemma AdmissionsMove(subs: map<Tid, Submitter>, t: Tid, sub: Submitter)
    requires t in subs
    ensures Admissions(subs[t := sub]) + (if subs[t].Admitted? then 1 else 0)
         == Admissions(subs) + (if sub.Admitted? then 1 else 0)
  {
    var a, a' := Admitteds(subs), Admitteds(subs[t := sub]);
    assert a - {t} == a' - {t};
    assert subs[t].Admitted? ==> a == (a - {t}) + {t};
    assert !subs[t].Admitted? ==> a == a - {t};
    assert sub.Admitted? ==> a' == (a' - {t}) + {t};
    assert !sub.Admitted? ==> a' == a' - {t};
  }

  /** Only block `i` changes hands or contents, and not what it carries. */
  lemma CargoAt(blocks: map<Iocb, Block>, own: Owners, blocks': map<Iocb, Block>, own': Owners, i: Iocb)
    requires own.Keys <= blocks.Keys
    requires forall j :: j != i && j in own ==> j in own' && own'[j] == own[j]
    requires forall j :: j != i && j in own' ==> j in own
    requires forall j :: j != i && j in blocks ==> j in blocks' && blocks'[j] == blocks[j]
    requires Carries(own, i) <==> Carries(own', i)
    requires Carries(own, i) ==> i in blocks' && blocks'[i] == blocks[i]
    requires Awaits(own', i) ==> Awaits(own, i)
    ensures SameCargo(blocks, own, blocks', own')
  {
  }

  lemma ShapeMove(cfg: Config, blocks: map<Iocb, Block>, subs: map<Tid, Submitter>, t: Tid, sub: Submitter)
    requires ShapePart(cfg, blocks, subs) && SubShape(cfg, blocks, sub)
    ensures ShapePart(cfg, blocks, subs[t := sub])
  {
  }

  /** Filling the block that thread `t` holds does not show in the others. */
  lemma ShapeFill(cfg: Config, blocks: map<Iocb, Block>, own: Owners, subs: map<Tid, Submitter>, t: Tid, i: Iocb,
      b: Block, sub: Submitter)
    requires ShapePart(cfg, blocks, subs) && SubShape(cfg, blocks[i := b], sub)
    requires forall u :: u in subs ==> SubPlaced(own, u, subs[u])
    requires i in own && own[i] == WithSub(t, false)
    ensures ShapePart(cfg, blocks[i := b], subs[t := sub])
  {
    forall u | u in subs && u != t ensures SubShape(cfg, blocks[i := b], subs[u]) {
      assert SubShape(cfg, blocks, subs[u]) && SubPlaced(own, u, subs[u]);
    }
  }

  /** A thread in the middle of a submission means the drain has not succeeded. */
  lemma BusyMeansDraining(s: State, own: Owners, t: Tid)
    requires InvAt(s, own) && t in s.subs && !AtRest(s.subs[t])
    ensures Draining(s.closer)
  {
  }

  /** Fewer blocks carry, and those that do are unchanged. */
  lemma FewerCargo(cfg: Config, blocks: map<Iocb, Block>, own: Owners, blocks': map<Iocb, Block>, own': Owners,
                   sentinel: Option<Iocb>, nextRef: Ref, completed: seq<Completion>)
    requires DataPart(cfg, blocks, own, sentinel) && OncePart(blocks, own, completed, nextRef)
    requires own'.Keys <= blocks'.Keys
    requires forall i :: Carries(own', i) ==> Carries(own, i) && i in blocks && blocks'[i] == blocks[i]
    requires forall i :: Awaits(own', i) ==> Awaits(own, i) && i in blocks && i in blocks' && blocks'[i] == blocks[i]
    ensures DataPart(cfg, blocks', own', sentinel) && OncePart(blocks', own', completed, nextRef)
  {
    hide RefsOnce;
    forall i | i in own' && Carrying(own'[i]) ensures DataFits(cfg, blocks'[i], sentinel == Some(i)) {
      assert Carries(own', i) && Carries(own, i);
    }
    forall i, k | 0 <= k < |completed| ensures !AwaitsCompletion(blocks', own', i, completed[k].data) {
      assert !AwaitsCompletion(blocks, own, i, completed[k].data);
      assert Awaits(own', i) ==> Awaits(own, i);
    }
  }

  /** A block that carries no reference stops carrying. */
  lemma RefUncarried(blocks: map<Iocb, Block>, own: Owners, own': Owners, i: Iocb,
                     pref: Option<Ref>, live: set<Ref>, nextRef: Ref)
    requires RefPart(blocks, own, pref, live, nextRef) && i in blocks && !blocks[i].data.Callback?
    requires forall j :: j != i ==> (Carries(own', j) <==> Carries(own, j))
    ensures RefPart(blocks, own', pref, live, nextRef)
  {
    hide RefPart;
    forall j, q ensures CarriesRef(blocks, own', j, q) <==> CarriesRef(blocks, own, j, q) {
      assert j != i ==> (Carries(own', j) <==> Carries(own, j));
    }
    RefSame(blocks, own, blocks, own', pref, live, nextRef, nextRef);
  }

  lemma OwnedKeys(own: Owners, i: Iocb, place: Place)
    requires i in own
    ensures own[i := place].Keys == own.Keys
  {
  }

  lemma DrainLater(permits: int, subs: map<Tid, Submitter>, out: set<Iocb>, p: Poller, pool: Pool, all: set<Iocb>,
      failed: nat, c: Closer)
    requires Draining(c)
    ensures DrainPart(permits, subs, out, p, pool, all, failed, c)
  {
  }

  /** Clearing the data of a block no thread holds does not show in the threads. */
  lemma ShapeElsewhere(cfg: Config, blocks: map<Iocb, Block>, own: Owners, subs: map<Tid, Submitter>, i: Iocb, b: Block)
    requires ShapePart(cfg, blocks, subs)
    requires forall u :: u in subs ==> SubPlaced(own, u, subs[u])
    requires i in own && !own[i].WithSub?
    ensures ShapePart(cfg, blocks[i := b], subs)
  {
    forall u | u in subs ensures SubShape(cfg, blocks[i := b], subs[u]) {
      assert SubShape(cfg, blocks, subs[u]) && SubPlaced(own, u, subs[u]);
    }
  }

  lemma DataArmed(cfg: Config, blocks: map<Iocb, Block>, own: Owners, blocks': map<Iocb, Block>, own': Owners,
      i: Iocb, sentinel: Option<Iocb>)
    requires DataPart(cfg, blocks, own, sentinel) && i in own && i in blocks'
    requires i in own' && blocks' == blocks[i := blocks'[i]] && own' == own[i := own'[i]]
    requires DataFits(cfg, blocks'[i], sentinel == Some(i))
    ensures DataPart(cfg, blocks', own', sentinel)
  {
  }

  lemma OnceArmed(blocks: map<Iocb, Block>, own: Owners, blocks': map<Iocb, Block>, own': Owners, i: Iocb,
                  completed: seq<Completion>, nextRef: Ref, nextRef': Ref)
    requires OncePart(blocks, own, completed, nextRef) && i in own && i in blocks' && i in own'
    requires blocks' == blocks[i := blocks'[i]] && own' == own[i := own'[i]]
    requires nextRef <= nextRef' && (blocks'[i].data.Callback? ==> blocks'[i].data.ref == nextRef)
    ensures OncePart(blocks', own', completed, nextRef')
  {
    hide RefsOnce;
    forall j, k | 0 <= k < |completed| ensures !AwaitsCompletion(blocks', own', j, completed[k].data) {
      assert !AwaitsCompletion(blocks, own, j, completed[k].data);
    }
  }
}
