/** What the program must observe: the calls that a sequence of reaped batches
    has to cause, stated without the code that makes them, and what follows
    about order, multiplicity and durability. */
module Trace {
  import opened Sequences
  import opened RingArithmetic
  import opened Lifecycle

  /** What the kernel completed: for whom, on which file, with which result. */
  datatype Completion = Completion(data: Data, fd: int, res: int)

  /** A notification that reaches the caller, by either polling mode. */
  datatype Note = Failed(ref: Ref, errno: int) | Finished(ref: Ref)

  function NoteOf(e: Entry): (notes: seq<Note>) {
    match e
    case OnError(ref, errno) => [Failed(ref, errno)]
    case Done(ref) => [Finished(ref)]
    case Stored(_, ref) => [Finished(ref)]
    case _ => []
  }

  function Notes(log: seq<Entry>): (notes: seq<Note>) {
    FlatMap(NoteOf, log)
  }

  /** The notifications that one completion owes its submitter. */
  function Owed(c: Completion): (notes: seq<Note>) {
    match c.data
    case Callback(ref) => (if I32(c.res) < 0 then [Failed(ref, -I32(c.res))] else []) + [Finished(ref)]
    case _ => []
  }

  function OwedAll(cs: seq<Completion>): (notes: seq<Note>) {
    FlatMap(Owed, cs)
  }

  predicate FitsInt(c: Completion) {
    -TWO31 <= c.res < TWO31
  }

  /** The same in plain numbers, for a result that fits an `int`: an error is a
      negative result, and its number is the result without the sign. */
  function PlainOwed(c: Completion): (notes: seq<Note>) {
    if !c.data.Callback? then []
    else if c.res < 0 then [Failed(c.data.ref, -c.res), Finished(c.data.ref)]
    else [Finished(c.data.ref)]
  }

  function PlainOwedAll(cs: seq<Completion>): (notes: seq<Note>) {
    FlatMap(PlainOwed, cs)
  }

  lemma {:induction false} OwedIsPlain(cs: seq<Completion>)
    requires forall k :: 0 <= k < |cs| ==> FitsInt(cs[k])
    ensures OwedAll(cs) == PlainOwedAll(cs)
  {
    if cs != [] {
      var init, c := cs[..|cs| - 1], cs[|cs| - 1];
      OwedIsPlain(init);
      ConversionIsExact(c.res);
      hide I32;
      assert Owed(c) == PlainOwed(c);
    }
  }

  function Flatten(batches: seq<seq<Completion>>): (cs: seq<Completion>) {
    FlatMap((cs: seq<Completion>) => cs, batches)
  }

  // ----- The log a run must show -----

  function SyncPart(cfg: Config, prev: int, fd: int): (log: seq<Entry>) {
    if cfg.blocking && cfg.useFdatasync && prev != fd then [Fdatasync(fd)] else []
  }

  function ErrorPart(c: Completion): (log: seq<Entry>) {
    if I32(c.res) < 0 && c.data.Callback? then [OnError(c.data.ref, -I32(c.res))] else []
  }

  function FinishPart(cfg: Config, index: nat, data: Data): (log: seq<Entry>) {
    if !data.Callback? then [] else if cfg.blocking then [Done(data.ref)] else [Stored(index, data.ref)]
  }

  function EventLog(cfg: Config, prev: int, index: nat, c: Completion): (log: seq<Entry>) {
    if c.data.Sentinel? then [] else SyncPart(cfg, prev, c.fd) + ErrorPart(c) + FinishPart(cfg, index, c.data)
  }

  /** `lastFile` when the loop reaches event `i`. */
  function Prev(cfg: Config, cs: seq<Completion>, i: nat): (fd: int)
    requires i <= |cs|
  {
    if i == 0 || !cfg.blocking || !cfg.useFdatasync then -1 else cs[i - 1].fd
  }

  function LogPrefix(cfg: Config, cs: seq<Completion>, i: nat): (log: seq<Entry>)
    requires i <= |cs|
  {
    if i == 0 then [] else LogPrefix(cfg, cs, i - 1) + EventLog(cfg, Prev(cfg, cs, i - 1), i - 1, cs[i - 1])
  }

  function BatchLog(cfg: Config, cs: seq<Completion>): (log: seq<Entry>) {
    [Reaped] + LogPrefix(cfg, cs, |cs|)
  }

  function LogOf(cfg: Config, batches: seq<seq<Completion>>): (log: seq<Entry>) {
    FlatMap((cs: seq<Completion>) => BatchLog(cfg, cs), batches)
  }

  // ----- Every completion is notified once, in order -----

  lemma EventNotes(cfg: Config, prev: int, index: nat, c: Completion)
    ensures Notes(EventLog(cfg, prev, index, c)) == Owed(c)
  {
    hide I32, FlatMap;
    var s, r, f := SyncPart(cfg, prev, c.fd), ErrorPart(c), FinishPart(cfg, index, c.data);
    PartsNotes(s, r, f);
    AtMostOne([]);
    assert s != [] ==> NoteOf(s[0]) == [];
  }

  lemma PartsNotes(s: seq<Entry>, r: seq<Entry>, f: seq<Entry>)
    requires |s| <= 1 && |r| <= 1 && |f| <= 1
    ensures Notes(s + r + f) == (if s == [] then [] else NoteOf(s[0])) + (if r == [] then [] else NoteOf(r[0]))
                                + (if f == [] then [] else NoteOf(f[0]))
  {
    FlatMapConcat(NoteOf, s + r, f);
    FlatMapConcat(NoteOf, s, r);
    AtMostOne(s);
    AtMostOne(r);
    AtMostOne(f);
  }

  lemma AtMostOne(s: seq<Entry>)
    requires |s| <= 1
    ensures Notes(s) == if s == [] then [] else NoteOf(s[0])
  {
    if s != [] {
      FlatMapSingle(NoteOf, s[0]);
      assert s == [s[0]];
    }
  }

  lemma {:induction false} PrefixNotes(cfg: Config, cs: seq<Completion>, i: nat)
    requires i <= |cs|
    ensures Notes(LogPrefix(cfg, cs, i)) == OwedAll(cs[..i])
  {
    if i == 0 {
      assert cs[..i] == [];
    } else {
      hide FlatMap, EventLog, Owed, NoteOf, Prev;
      PrefixNotes(cfg, cs, i - 1);
      var prev := Prev(cfg, cs, i - 1);
      EventNotes(cfg, prev, i - 1, cs[i - 1]);
      NotesExtend(LogPrefix(cfg, cs, i - 1), EventLog(cfg, prev, i - 1, cs[i - 1]), cs[..i - 1], cs[i - 1]);
      TakeSnoc(cs, i);
    }
  }

  lemma NotesExtend(p: seq<Entry>, e: seq<Entry>, cs: seq<Completion>, c: Completion)
    requires Notes(p) == OwedAll(cs) && Notes(e) == Owed(c)
    ensures Notes(p + e) == OwedAll(cs + [c])
  {
    FlatMapConcat(NoteOf, p, e);
    FlatMapSnoc(Owed, cs, c);
  }

  lemma BatchNotes(cfg: Config, cs: seq<Completion>)
    ensures Notes(BatchLog(cfg, cs)) == OwedAll(cs)
  {
    PrefixNotes(cfg, cs, |cs|);
    assert cs[..|cs|] == cs;
    AtMostOne([Reaped]);
    FlatMapConcat(NoteOf, [Reaped], LogPrefix(cfg, cs, |cs|));
  }

  /** Adding a batch adds its log and its completions. */
  lemma AddBatch(cfg: Config, batches: seq<seq<Completion>>, cs: seq<Completion>)
    ensures LogOf(cfg, batches + [cs]) == LogOf(cfg, batches) + BatchLog(cfg, cs)
    ensures Flatten(batches + [cs]) == Flatten(batches) + cs
  {
    FlatMapSnoc((b: seq<Completion>) => BatchLog(cfg, b), batches, cs);
    FlatMapSnoc((b: seq<Completion>) => b, batches, cs);
  }

  /** Reading a whole log back gives what the batches owe, in their order. */
  lemma {:induction false} LogNotes(cfg: Config, batches: seq<seq<Completion>>)
    ensures Notes(LogOf(cfg, batches)) == OwedAll(Flatten(batches))
  {
    if batches != [] {
      var init, last := batches[..|batches| - 1], batches[|batches| - 1];
      LogNotes(cfg, init);
      assert batches == init + [last];
      AddBatch(cfg, init, last);
      BatchNotes(cfg, last);
      FlatMapConcat(NoteOf, LogOf(cfg, init), BatchLog(cfg, last));
      FlatMapConcat(Owed, Flatten(init), last);
    }
  }

  /** Distinct completions finish distinct references: nobody is told twice. */
  ghost predicate RefsOnce(cs: seq<Completion>) {
    forall i, j :: 0 <= i < j < |cs| && cs[i].data.Callback? ==> cs[i].data != cs[j].data
  }

  ghost predicate FinishedOnce(notes: seq<Note>) {
    forall i, j :: 0 <= i < j < |notes| && notes[i].Finished? ==> notes[i] != notes[j]
  }

  lemma {:induction false} OwedOnce(cs: seq<Completion>)
    requires RefsOnce(cs)
    ensures FinishedOnce(OwedAll(cs))
  {
    if cs != [] {
      var init, c := cs[..|cs| - 1], cs[|cs| - 1];
      OwedOnce(init);
      assert cs == init + [c];
      FlatMapSnoc(Owed, init, c);
      var a, b := OwedAll(init), Owed(c);
      forall i, j | 0 <= i < |a| && 0 <= j < |b| && a[i].Finished? ensures a[i] != b[j] {
        FlatMapFrom(Owed, init, a[i]);
      }
    }
  }

  // ----- Where an array poll stores its callbacks -----

  function StoreOf(e: Entry): (stores: seq<(nat, Ref)>) {
    if e.Stored? then [(e.index, e.ref)] else []
  }

  /** The writes to the array, in order. */
  function Stores(log: seq<Entry>): (stores: seq<(nat, Ref)>) {
    FlatMap(StoreOf, log)
  }

  /** Each of the first `i` completions with a callback, at its own index. */
  function ByIndex(cs: seq<Completion>, i: nat): (stores: seq<(nat, Ref)>)
    requires i <= |cs|
  {
    if i == 0 then []
    else ByIndex(cs, i - 1) + if cs[i - 1].data.Callback? then [(i - 1, cs[i - 1].data.ref)] else []
  }

  lemma EventStores(cfg: Config, prev: int, index: nat, c: Completion)
    requires !cfg.blocking
    ensures Stores(EventLog(cfg, prev, index, c)) == if c.data.Callback? then [(index, c.data.ref)] else []
  {
    hide I32;
    var r, f := ErrorPart(c), FinishPart(cfg, index, c.data);
    assert EventLog(cfg, prev, index, c) == if c.data.Sentinel? then [] else r + f;
    FlatMapConcat(StoreOf, r, f);
    if r != [] { FlatMapSingle(StoreOf, r[0]); }
    if f != [] { FlatMapSingle(StoreOf, f[0]); }
  }

  /** In the required log of an array poll the callback of the k-th event, and
      nothing else, is stored at index k. */
  lemma {:induction false} StoredByIndex(cfg: Config, cs: seq<Completion>, i: nat)
    requires !cfg.blocking && i <= |cs|
    ensures Stores(LogPrefix(cfg, cs, i)) == ByIndex(cs, i)
  {
    hide LogPrefix, ByIndex, Stores, EventLog, Prev;
    if i == 0 {
      NothingStored(cfg, cs);
    } else {
      StoredByIndex(cfg, cs, i - 1);
      NextPrefix(cfg, cs, i - 1);
      NextIndex(cs, i);
      EventStores(cfg, Prev(cfg, cs, i - 1), i - 1, cs[i - 1]);
      StoresConcat(LogPrefix(cfg, cs, i - 1), EventLog(cfg, Prev(cfg, cs, i - 1), i - 1, cs[i - 1]));
    }
  }

  lemma NothingStored(cfg: Config, cs: seq<Completion>)
    ensures Stores(LogPrefix(cfg, cs, 0)) == ByIndex(cs, 0)
  {
  }

  lemma StoresConcat(a: seq<Entry>, b: seq<Entry>)
    ensures Stores(a + b) == Stores(a) + Stores(b)
  {
    FlatMapConcat(StoreOf, a, b);
  }

  lemma NextIndex(cs: seq<Completion>, i: nat)
    requires 0 < i <= |cs|
    ensures ByIndex(cs, i) ==
      ByIndex(cs, i - 1) + if cs[i - 1].data.Callback? then [(i - 1, cs[i - 1].data.ref)] else []
  {
  }

  // ----- Durability before notification -----

  /** `fd` was synced before position `k` and after the last reap before it. */
  ghost predicate SyncedSince(log: seq<Entry>, k: nat, fd: int)
    requires k <= |log|
  {
    exists j :: SyncAt(log, j, k, fd)
  }

  ghost predicate SyncAt(log: seq<Entry>, j: int, k: nat, fd: int)
    requires k <= |log|
  {
    0 <= j < k && log[j] == Fdatasync(fd) && forall m :: j <= m < k ==> log[m] != Reaped
  }

  /** Every `done` in the log belongs to a completion whose file was synced
      between the reap that brought it and the call. */
  ghost predicate DoneIsDurable(log: seq<Entry>, cs: seq<Completion>) {
    forall k :: 0 <= k < |log| && log[k].Done? ==> DurableAt(log, cs, k)
  }

  ghost predicate DurableAt(log: seq<Entry>, cs: seq<Completion>, k: nat)
    requires k < |log| && log[k].Done?
  {
    exists i :: 0 <= i < |cs| && cs[i].data == Callback(log[k].ref) && SyncedSince(log, k, cs[i].fd)
  }

  ghost predicate RealFiles(cs: seq<Completion>) {
    forall i :: 0 <= i < |cs| ==> cs[i].fd >= 0
  }

  lemma SyncedLater(a: seq<Entry>, b: seq<Entry>, c: seq<Entry>, k: nat, fd: int)
    requires k <= |b| && SyncedSince(b, k, fd)
    ensures SyncedSince(a + b + c, |a| + k, fd)
  {
    var j :| SyncAt(b, j, k, fd);
    var log := a + b + c;
    forall m | |a| + j <= m < |a| + k ensures log[m] != Reaped {
      assert log[m] == b[m - |a|];
    }
    assert SyncAt(log, |a| + j, |a| + k, fd);
  }

  lemma NextPrefix(cfg: Config, cs: seq<Completion>, i: nat)
    requires i < |cs|
    ensures LogPrefix(cfg, cs, i + 1) == LogPrefix(cfg, cs, i) + EventLog(cfg, Prev(cfg, cs, i), i, cs[i])
  {
    hide EventLog, Prev;
  }

  lemma NothingDone(cfg: Config, cs: seq<Completion>)
    ensures LogPrefix(cfg, cs, 0) == [] && DoneIsDurable([], cs)
  {
  }

  lemma {:induction false} PrefixDurable(cfg: Config, cs: seq<Completion>, i: nat)
    requires cfg.blocking && cfg.useFdatasync && i <= |cs| && RealFiles(cs)
    requires forall k :: 0 <= k < |cs| ==> !cs[k].data.Sentinel?
    ensures DoneIsDurable(LogPrefix(cfg, cs, i), cs)
    ensures i > 0 ==> SyncedSince(LogPrefix(cfg, cs, i), |LogPrefix(cfg, cs, i)|, cs[i - 1].fd)
  {
    hide DoneIsDurable, SyncedSince, LogPrefix, EventLog, Prev;
    if i == 0 {
      NothingDone(cfg, cs);
    } else {
      PrefixDurable(cfg, cs, i - 1);
      NextPrefix(cfg, cs, i - 1);
      EventIsDurable(cfg, cs, LogPrefix(cfg, cs, i - 1), i - 1);
    }
  }

  /** One event more. */
  lemma EventIsDurable(cfg: Config, cs: seq<Completion>, p: seq<Entry>, i: nat)
    requires cfg.blocking && cfg.useFdatasync && i < |cs| && cs[i].fd >= 0 && !cs[i].data.Sentinel?
    requires DoneIsDurable(p, cs) && (i > 0 ==> SyncedSince(p, |p|, cs[i - 1].fd))
    ensures var log := p + EventLog(cfg, Prev(cfg, cs, i), i, cs[i]);
      DoneIsDurable(log, cs) && SyncedSince(log, |log|, cs[i].fd)
  {
    hide DoneIsDurable, SyncedSince, I32;
    var c, prev := cs[i], Prev(cfg, cs, i);
    DurableStep(p, SyncPart(cfg, prev, c.fd), ErrorPart(c), FinishPart(cfg, i, c.data), cs, i);
  }

  lemma DurableStep(p: seq<Entry>, s: seq<Entry>, r: seq<Entry>, f: seq<Entry>, cs: seq<Completion>, i: nat)
    requires i < |cs| && DoneIsDurable(p, cs)
    requires s == [Fdatasync(cs[i].fd)] || (s == [] && SyncedSince(p, |p|, cs[i].fd))
    requires |r| <= 1 && (r != [] ==> r[0].OnError?)
    requires |f| <= 1 && (f != [] ==> f[0].Done? && cs[i].data == Callback(f[0].ref))
    ensures DoneIsDurable(p + (s + r + f), cs)
    ensures SyncedSince(p + (s + r + f), |p + (s + r + f)|, cs[i].fd)
  {
    var log := p + (s + r + f);
    EventDurable(p, s, r, f, log, cs[i].fd);
    DurableExtend(p, s + r, f, log, cs, i);
  }

  lemma DurableExtend(p: seq<Entry>, e: seq<Entry>, f: seq<Entry>, log: seq<Entry>, cs: seq<Completion>, i: nat)
    requires log == p + (e + f) && i < |cs|
    requires DoneIsDurable(p, cs) && (forall k :: 0 <= k < |e| ==> !e[k].Done?) && |f| <= 1
    requires f != [] ==> f[0].Done? && cs[i].data == Callback(f[0].ref) && SyncedSince(log, |log| - 1, cs[i].fd)
    ensures DoneIsDurable(log, cs)
  {
    assert forall k :: |p| <= k < |p| + |e| ==> log[k] == e[k - |p|];
    forall k | 0 <= k < |log| && log[k].Done? ensures DurableAt(log, cs, k) {
      if k < |p| {
        DurableLater(p, e + f, cs, k);
      }
    }
  }

  lemma DurableLater(p: seq<Entry>, q: seq<Entry>, cs: seq<Completion>, k: nat)
    requires k < |p| && p[k].Done? && DurableAt(p, cs, k)
    ensures DurableAt(p + q, cs, k)
  {
    var x :| 0 <= x < |cs| && cs[x].data == Callback(p[k].ref) && SyncedSince(p, k, cs[x].fd);
    SyncedLater([], p, q, k, cs[x].fd);
    assert [] + p + q == p + q;
  }

  lemma EventDurable(p: seq<Entry>, s: seq<Entry>, r: seq<Entry>, f: seq<Entry>, log: seq<Entry>, fd: int)
    requires log == p + (s + r + f)
    requires s == [Fdatasync(fd)] || (s == [] && SyncedSince(p, |p|, fd))
    requires forall k :: 0 <= k < |r| ==> r[k].OnError?
    requires forall k :: 0 <= k < |f| ==> f[k].Done?
    requires |r| <= 1 && |f| <= 1
    ensures SyncedSince(log, |log|, fd)
    ensures f != [] ==> SyncedSince(log, |log| - 1, fd)
  {
    var j := |p|;
    if s == [] {
      j :| SyncAt(p, j, |p|, fd);
    }
    assert log[j] == Fdatasync(fd);
    forall m | j <= m < |log| ensures log[m] != Reaped {
      if m < |p| { assert log[m] == p[m]; }
    }
    assert SyncAt(log, j, |log|, fd);
    if f != [] {
      assert SyncAt(log, j, |log| - 1, fd);
    }
  }

  lemma {:induction false} LogDurable(cfg: Config, batches: seq<seq<Completion>>)
    requires cfg.blocking && cfg.useFdatasync
    requires forall b :: 0 <= b < |batches| ==> PlainBatch(batches[b])
    ensures DoneIsDurable(LogOf(cfg, batches), Flatten(batches))
  {
    if batches != [] {
      var init, cs := batches[..|batches| - 1], batches[|batches| - 1];
      LogDurable(cfg, init);
      assert batches == init + [cs];
      AddBatch(cfg, init, cs);
      var a, b := LogOf(cfg, init), LogPrefix(cfg, cs, |cs|);
      BatchDurable(cfg, cs);
      DurableConcat(a, Flatten(init), b, cs);
      Assoc(a, [Reaped], b);
    }
  }

  lemma BatchDurable(cfg: Config, cs: seq<Completion>)
    requires cfg.blocking && cfg.useFdatasync && PlainBatch(cs)
    ensures DoneIsDurable(LogPrefix(cfg, cs, |cs|), cs)
  {
    if Unsynced(cs) {
      assert LogPrefix(cfg, cs, 1) == LogPrefix(cfg, cs, 0) + EventLog(cfg, Prev(cfg, cs, 0), 0, cs[0]);
    } else {
      PrefixDurable(cfg, cs, |cs|);
    }
  }

  /** A batch of submissions on real files, or the sentinel alone. */
  ghost predicate PlainBatch(cs: seq<Completion>) {
    Unsynced(cs) || (RealFiles(cs) && forall k :: 0 <= k < |cs| ==> !cs[k].data.Sentinel?)
  }

  ghost predicate Unsynced(cs: seq<Completion>) {
    |cs| == 1 && cs[0].data.Sentinel?
  }

  lemma DurableConcat(a: seq<Entry>, ca: seq<Completion>, b: seq<Entry>, cb: seq<Completion>)
    requires DoneIsDurable(a, ca) && DoneIsDurable(b, cb)
    ensures DoneIsDurable(a + [Reaped] + b, ca + cb)
  {
    var log, cs := a + [Reaped] + b, ca + cb;
    forall k | 0 <= k < |log| && log[k].Done? ensures DurableAt(log, cs, k) {
      if k < |a| {
        DurableLater(a, [Reaped] + b, ca, k);
        assert a + ([Reaped] + b) == log;
        DurableMore(log, ca, cb, k);
      } else {
        var k' := k - |a| - 1;
        assert log[k] == b[k'] && DurableAt(b, cb, k');
        var x :| 0 <= x < |cb| && cb[x].data == Callback(b[k'].ref) && SyncedSince(b, k', cb[x].fd);
        SyncedLater(a + [Reaped], b, [], k', cb[x].fd);
        assert (a + [Reaped]) + b + [] == log;
        assert cs[|ca| + x] == cb[x];
      }
    }
  }

  lemma DurableMore(log: seq<Entry>, ca: seq<Completion>, cb: seq<Completion>, k: nat)
    requires k < |log| && log[k].Done? && DurableAt(log, ca, k)
    ensures DurableAt(log, ca + cb, k)
  {
    var x :| 0 <= x < |ca| && ca[x].data == Callback(log[k].ref) && SyncedSince(log, k, ca[x].fd);
    assert (ca + cb)[x] == ca[x];
  }

  lemma DurablePrefix(log: seq<Entry>, full: seq<Entry>, cs: seq<Completion>)
    requires log <= full && DoneIsDurable(full, cs)
    ensures DoneIsDurable(log, cs)
  {
    forall k | 0 <= k < |log| && log[k].Done? ensures DurableAt(log, cs, k) {
      assert full[k] == log[k] && DurableAt(full, cs, k);
      var x :| 0 <= x < |cs| && cs[x].data == Callback(full[k].ref) && SyncedSince(full, k, cs[x].fd);
      var j :| SyncAt(full, j, k, cs[x].fd);
      assert SyncAt(log, j, k, cs[x].fd);
    }
  }

  // ----- One fdatasync per run of equal descriptors -----

  function SyncOf(e: Entry): (syncs: seq<int>) {
    if e.Fdatasync? then [e.fd] else []
  }

  /** The descriptors synced, call by call. */
  function Syncs(log: seq<Entry>): (fds: seq<int>) {
    FlatMap(SyncOf, log)
  }

  ghost predicate StartsRun(cs: seq<Completion>, k: nat)
    requires k < |cs|
  {
    k == 0 || cs[k].fd != cs[k - 1].fd
  }

  /** The positions where a maximal run of equal descriptors begins. */
  ghost function RunStarts(cs: seq<Completion>): (starts: set<nat>) {
    set k: nat | k < |cs| && StartsRun(cs, k)
  }

  lemma EventSyncs(cfg: Config, prev: int, index: nat, c: Completion)
    requires !c.data.Sentinel?
    ensures |Syncs(EventLog(cfg, prev, index, c))| == |SyncPart(cfg, prev, c.fd)|
  {
    hide I32;
    var s, r, f := SyncPart(cfg, prev, c.fd), ErrorPart(c), FinishPart(cfg, index, c.data);
    FlatMapConcat(SyncOf, s + r, f);
    FlatMapConcat(SyncOf, s, r);
    if s != [] { FlatMapSingle(SyncOf, s[0]); }
    if r != [] { FlatMapSingle(SyncOf, r[0]); }
    if f != [] { FlatMapSingle(SyncOf, f[0]); }
  }

  lemma RunStartsSnoc(cs: seq<Completion>, i: nat)
    requires 0 < i <= |cs|
    ensures |RunStarts(cs[..i])| == |RunStarts(cs[..i - 1])| + (if StartsRun(cs, i - 1) then 1 else 0)
  {
    var before, now := RunStarts(cs[..i - 1]), RunStarts(cs[..i]);
    assert forall k: nat :: k < i - 1 ==> (StartsRun(cs[..i], k) <==> StartsRun(cs[..i - 1], k));
    assert StartsRun(cs[..i], i - 1) <==> StartsRun(cs, i - 1);
    if StartsRun(cs, i - 1) {
      assert now == before + {i - 1};
    } else {
      assert now == before;
    }
  }

  lemma PrefixSyncs(cfg: Config, cs: seq<Completion>, i: nat)
    requires 0 < i <= |cs| && !cs[i - 1].data.Sentinel?
    ensures |Syncs(LogPrefix(cfg, cs, i))|
         == |Syncs(LogPrefix(cfg, cs, i - 1))| + |SyncPart(cfg, Prev(cfg, cs, i - 1), cs[i - 1].fd)|
  {
    var prev := Prev(cfg, cs, i - 1);
    FlatMapConcat(SyncOf, LogPrefix(cfg, cs, i - 1), EventLog(cfg, prev, i - 1, cs[i - 1]));
    EventSyncs(cfg, prev, i - 1, cs[i - 1]);
  }

  /** The number of fdatasync calls of a batch is its number of maximal runs of
      equal descriptors. */
  lemma {:induction false} SyncsPerBatch(cfg: Config, cs: seq<Completion>, i: nat)
    requires cfg.blocking && cfg.useFdatasync && i <= |cs| && RealFiles(cs)
    requires forall k :: 0 <= k < |cs| ==> !cs[k].data.Sentinel?
    ensures |Syncs(LogPrefix(cfg, cs, i))| == |RunStarts(cs[..i])|
  {
    hide EventLog;
    if i == 0 {
      assert RunStarts(cs[..i]) == {};
    } else {
      SyncsPerBatch(cfg, cs, i - 1);
      PrefixSyncs(cfg, cs, i);
      RunStartsSnoc(cs, i);
      assert Prev(cfg, cs, i - 1) != cs[i - 1].fd <==> StartsRun(cs, i - 1);
    }
  }
}
