/**
 * The bookkeeping of `ClearLoadTester.run_test` (load-tester.py): the list
 * of submitted futures, the scan for the finished ones, and the counters of
 * the `results` dict. The thread pool is the environment: it finishes
 * futures (method `Finish`) between two scans of the main thread (method
 * `ProcessDone`). Clocks, the display cadence and the final wait are not
 * modelled.
 */
module ClearRunLoop {
  import opened Wrappers
  import opened HttpModel
  import opened ClearLoadTester
  import opened SeqFacts

  /** What `future.result()` does once the future has finished. */
  datatype Completion = Returned(outcome: Outcome) | Raised

  datatype FutureState = Pending | Done(completion: Completion)

  /**
   * A submitted call `make_request(worker)`. `id` stands for the future
   * object's identity, which is what `list.remove` compares.
   */
  datatype Future = Future(id: nat, worker: int, state: FutureState)

  predicate IsDone(f: Future)
  {
    f.state.Done?
  }

  predicate AllDone(fs: seq<Future>)
  {
    forall k :: 0 <= k < |fs| ==> IsDone(fs[k])
  }

  /** `[f for f in futures if f.done()]` */
  function DoneOf(fs: seq<Future>): (done: seq<Future>)
    ensures AllDone(done)
  {
    if fs == [] then [] else (if IsDone(fs[0]) then [fs[0]] else []) + DoneOf(fs[1..])
  }

  /** The futures a scan leaves in the list because they have not finished. */
  function PendingOf(fs: seq<Future>): seq<Future>
  {
    if fs == [] then [] else (if IsDone(fs[0]) then [] else [fs[0]]) + PendingOf(fs[1..])
  }

  /** `futures.remove(f)`: drops the first entry that is the future `id`. */
  function Remove(fs: seq<Future>, id: nat): seq<Future>
  {
    if fs == [] then []
    else if fs[0].id == id then fs[1..]
    else [fs[0]] + Remove(fs[1..], id)
  }

  /** The entries of `fs` whose identity is not in `gone`. */
  function Keep(fs: seq<Future>, gone: set<nat>): seq<Future>
  {
    if fs == [] then [] else (if fs[0].id in gone then [] else [fs[0]]) + Keep(fs[1..], gone)
  }

  /** The identities of the futures in `fs`. */
  function IdSet(fs: seq<Future>): set<nat>
  {
    if fs == [] then {} else IdSet(fs[..|fs| - 1]) + {fs[|fs| - 1].id}
  }

  /** The worker ids of `fs`, in list order. */
  function Workers(fs: seq<Future>): (ws: seq<int>)
    ensures |ws| == |fs| && forall i :: 0 <= i < |fs| ==> ws[i] == fs[i].worker
  {
    seq(|fs|, i requires 0 <= i < |fs| => fs[i].worker)
  }

  /** List order is submission order: identities increase along the list. */
  predicate IdsIncreasing(fs: seq<Future>)
  {
    forall i, j :: 0 <= i < j < |fs| ==> fs[i].id < fs[j].id
  }

  predicate IdsBelow(fs: seq<Future>, bound: nat)
  {
    forall k :: 0 <= k < |fs| ==> fs[k].id < bound
  }

  /** `make_request` reports the worker id it was submitted with. */
  predicate Faithful(f: Future)
  {
    f.state.Done? && f.state.completion.Returned? ==> f.state.completion.outcome.worker == f.worker
  }

  predicate AllFaithful(fs: seq<Future>)
  {
    forall k :: 0 <= k < |fs| ==> Faithful(fs[k])
  }

  /** The `total`, `success` and `failed` entries of `results`. */
  datatype Tally = Tally(total: nat, success: nat, failed: nat)

  predicate Balanced(t: Tally)
  {
    t.total == t.success + t.failed
  }

  /**
   * The counter updates for one finished future. `refused` says that
   * `executor.submit` raised while resubmitting: the `except` branch then
   * counts one more failure and one more request, after the result was
   * already counted.
   */
  function Record(t: Tally, c: Completion, refused: bool): (r: Tally)
    ensures r.total == t.total + (if c.Returned? && refused then 2 else 1)
    ensures r.success + r.failed == t.success + t.failed + (if c.Returned? && refused then 2 else 1)
    ensures r.success == t.success + (if c.Returned? && c.outcome.success then 1 else 0)
    ensures r.failed >= t.failed
  {
    match c
    case Raised => Tally(t.total + 1, t.success, t.failed + 1)
    case Returned(o) =>
      var counted := Tally(t.total + 1,
                           if o.success then t.success + 1 else t.success,
                           if o.success then t.failed else t.failed + 1);
      if refused then Tally(counted.total + 1, counted.success, counted.failed + 1) else counted
  }

  /**
   * What `future.result()` does for a future the scan found done. A pass
   * never processes a pending future; for one, this says `Raised`.
   */
  function ResultOf(f: Future): Completion
  {
    if f.state.Done? then f.state.completion else Raised
  }

  /** The counters after processing the finished futures `done` in order. */
  function RecordAll(t: Tally, done: seq<Future>, refused: seq<bool>): Tally
    requires |refused| == |done|
  {
    if done == [] then t
    else
      var n := |done| - 1;
      Record(RecordAll(t, done[..n], refused[..n]), ResultOf(done[n]), refused[n])
  }

  /** A finished future whose worker gets a replacement. */
  predicate Resubmitted(f: Future, refused: bool)
  {
    f.state.Done? && f.state.completion.Returned? && !refused
  }

  /**
   * What resubmitting a processed future appends to the list: a fresh
   * pending future, numbered `id`, for the worker id in its result.
   */
  function Resubmission(f: Future, refused: bool, id: nat): seq<Future>
  {
    if Resubmitted(f, refused) then [Future(id, f.state.completion.outcome.worker, Pending)] else []
  }

  /** The futures appended by one pass, numbered from `next` on. */
  function Replacements(done: seq<Future>, refused: seq<bool>, next: nat): seq<Future>
    requires |refused| == |done|
  {
    if done == [] then []
    else
      var n := |done| - 1;
      var earlier := Replacements(done[..n], refused[..n], next);
      earlier + Resubmission(done[n], refused[n], next + |earlier|)
  }

  /** The processed futures whose worker gets no replacement. */
  function Lost(done: seq<Future>, refused: seq<bool>): seq<Future>
    requires |refused| == |done|
  {
    if done == [] then []
    else
      var n := |done| - 1;
      Lost(done[..n], refused[..n]) + (if Resubmitted(done[n], refused[n]) then [] else [done[n]])
  }

  // ---------------------------------------------------------------------
  // Facts about the scan and the list operations

  lemma {:induction false} DoneOfMembers(fs: seq<Future>)
    ensures forall k :: 0 <= k < |DoneOf(fs)| ==> DoneOf(fs)[k] in fs
    ensures |DoneOf(fs)| <= |fs|
  {
    if fs != [] {
      DoneOfMembers(fs[1..]);
      var rest := DoneOf(fs[1..]);
      assert forall k :: 0 <= k < |rest| ==> rest[k] in fs;
    }
  }

  lemma {:induction false} PendingOfMembers(fs: seq<Future>)
    ensures forall k :: 0 <= k < |PendingOf(fs)| ==> PendingOf(fs)[k] in fs
  {
    if fs != [] {
      PendingOfMembers(fs[1..]);
      var rest := PendingOf(fs[1..]);
      assert forall k :: 0 <= k < |rest| ==> rest[k] in fs;
    }
  }

  /** A future that comes after the head of an increasing list has a larger identity. */
  lemma AfterHead(fs: seq<Future>, g: Future)
    requires fs != [] && IdsIncreasing(fs) && g in fs[1..]
    ensures fs[0].id < g.id
  {
    var m :| 0 <= m < |fs[1..]| && fs[1..][m] == g;
    assert fs[m + 1] == g;
  }

  lemma {:induction false} DoneOfIncreasing(fs: seq<Future>)
    requires IdsIncreasing(fs)
    ensures IdsIncreasing(DoneOf(fs))
  {
    if fs != [] {
      DoneOfIncreasing(fs[1..]);
      DoneOfMembers(fs[1..]);
      var rest := DoneOf(fs[1..]);
      if IsDone(fs[0]) {
        forall k | 0 <= k < |rest| ensures fs[0].id < rest[k].id {
          AfterHead(fs, rest[k]);
        }
      }
    }
  }

  lemma {:induction false} PendingOfIncreasing(fs: seq<Future>)
    requires IdsIncreasing(fs)
    ensures IdsIncreasing(PendingOf(fs))
  {
    if fs != [] {
      PendingOfIncreasing(fs[1..]);
      PendingOfMembers(fs[1..]);
      var rest := PendingOf(fs[1..]);
      if !IsDone(fs[0]) {
        forall k | 0 <= k < |rest| ensures fs[0].id < rest[k].id {
          AfterHead(fs, rest[k]);
        }
      }
    }
  }

  lemma DoneOfFacts(fs: seq<Future>)
    ensures AllDone(DoneOf(fs))
    ensures forall k :: 0 <= k < |DoneOf(fs)| ==> DoneOf(fs)[k] in fs
    ensures IdsIncreasing(fs) ==> IdsIncreasing(DoneOf(fs))
    ensures |DoneOf(fs)| <= |fs|
  {
    DoneOfMembers(fs);
    if IdsIncreasing(fs) {
      DoneOfIncreasing(fs);
    }
  }

  lemma PendingOfFacts(fs: seq<Future>, bound: nat)
    ensures forall k :: 0 <= k < |PendingOf(fs)| ==> PendingOf(fs)[k] in fs
    ensures IdsIncreasing(fs) ==> IdsIncreasing(PendingOf(fs))
    ensures IdsBelow(fs, bound) ==> IdsBelow(PendingOf(fs), bound)
    ensures AllFaithful(fs) ==> AllFaithful(PendingOf(fs))
  {
    PendingOfMembers(fs);
    if IdsIncreasing(fs) {
      PendingOfIncreasing(fs);
    }
  }

  /** Every future of the list is either in the scan's result or left pending. */
  lemma {:induction false} ScanPartitions(fs: seq<Future>)
    ensures |DoneOf(fs)| + |PendingOf(fs)| == |fs|
    ensures multiset(Workers(DoneOf(fs))) + multiset(Workers(PendingOf(fs))) == multiset(Workers(fs))
  {
    if fs != [] {
      var rest, h := fs[1..], [fs[0]];
      ScanPartitions(rest);
      var d, p := DoneOf(rest), PendingOf(rest);
      assert fs == h + rest;
      WorkersAppend(h, rest);
      if IsDone(fs[0]) {
        assert DoneOf(fs) == h + d && PendingOf(fs) == p;
        WorkersAppend(h, d);
      } else {
        assert DoneOf(fs) == d && PendingOf(fs) == h + p;
        WorkersAppend(h, p);
      }
      MultisetPrepend(Workers(d), Workers(p), Workers(rest), Workers(h),
                      Workers(DoneOf(fs)), Workers(PendingOf(fs)), Workers(fs));
    }
  }

  /** Adding the same worker ids in front on both sides keeps a multiset equation. */
  lemma MultisetPrepend(a: seq<int>, b: seq<int>, c: seq<int>, x: seq<int>,
                        a': seq<int>, b': seq<int>, c': seq<int>)
    requires multiset(a) + multiset(b) == multiset(c)
    requires (a' == x + a && b' == b) || (a' == a && b' == x + b)
    requires c' == x + c
    ensures multiset(a') + multiset(b') == multiset(c')
  {
  }

  lemma WorkersAppend(a: seq<Future>, b: seq<Future>)
    ensures Workers(a + b) == Workers(a) + Workers(b)
  {
  }

  lemma {:induction false} KeepWithout(fs: seq<Future>, gone: set<nat>, id: nat)
    requires forall k :: 0 <= k < |fs| ==> fs[k].id != id
    ensures Keep(fs, gone + {id}) == Keep(fs, gone)
  {
    if fs != [] {
      KeepWithout(fs[1..], gone, id);
    }
  }

  /** With distinct identities, removing one future is filtering it out. */
  lemma {:induction false} RemoveKeep(fs: seq<Future>, gone: set<nat>, id: nat)
    requires IdsIncreasing(fs)
    ensures Remove(Keep(fs, gone), id) == Keep(fs, gone + {id})
  {
    if fs != [] {
      var rest := fs[1..];
      var x := Keep(rest, gone);
      assert IdsIncreasing(rest);
      RemoveKeep(rest, gone, id);
      if fs[0].id in gone {
        assert Keep(fs, gone) == x;
        assert Keep(fs, gone + {id}) == Keep(rest, gone + {id});
      } else if fs[0].id == id {
        HeadIdUnique(fs);
        KeepWithout(rest, gone, id);
        assert Keep(fs, gone) == [fs[0]] + x;
        assert Remove([fs[0]] + x, id) == x;
        assert Keep(fs, gone + {id}) == Keep(rest, gone + {id});
      } else {
        assert Keep(fs, gone) == [fs[0]] + x;
        RemoveCons(fs[0], x, id);
        assert Keep(fs, gone + {id}) == [fs[0]] + Keep(rest, gone + {id});
      }
    }
  }

  lemma HeadIdUnique(fs: seq<Future>)
    requires fs != [] && IdsIncreasing(fs)
    ensures forall k :: 0 <= k < |fs[1..]| ==> fs[1..][k].id != fs[0].id
  {
    forall k | 0 <= k < |fs[1..]| ensures fs[1..][k].id != fs[0].id {
      assert fs[1..][k] == fs[k + 1];
    }
  }

  lemma RemoveCons(f: Future, x: seq<Future>, id: nat)
    requires f.id != id
    ensures Remove([f] + x, id) == [f] + Remove(x, id)
  {
    assert ([f] + x)[1..] == x;
  }

  lemma KeepNone(fs: seq<Future>)
    ensures Keep(fs, {}) == fs
  {
  }

  lemma {:induction false} RemoveFront(a: seq<Future>, b: seq<Future>, id: nat)
    requires exists k :: 0 <= k < |a| && a[k].id == id
    ensures Remove(a + b, id) == Remove(a, id) + b
  {
    if a[0].id != id {
      var k :| 0 <= k < |a| && a[k].id == id;
      assert a[1..][k - 1].id == id;
      RemoveFront(a[1..], b, id);
      assert (a + b)[1..] == a[1..] + b;
    }
  }

  lemma {:induction false} KeepHas(fs: seq<Future>, gone: set<nat>, f: Future)
    requires f in fs && f.id !in gone
    ensures f in Keep(fs, gone)
  {
    if fs[0] != f {
      KeepHas(fs[1..], gone, f);
    }
  }

  /** Filtering out exactly the finished futures leaves the pending ones. */
  lemma {:induction false} KeepPending(fs: seq<Future>, gone: set<nat>)
    requires forall k :: 0 <= k < |fs| ==> (fs[k].id in gone <==> IsDone(fs[k]))
    ensures Keep(fs, gone) == PendingOf(fs)
  {
    if fs != [] {
      KeepPending(fs[1..], gone);
    }
  }

  lemma {:induction false} IdSetMembers(fs: seq<Future>)
    ensures forall x :: x in IdSet(fs) <==> exists k :: 0 <= k < |fs| && fs[k].id == x
  {
    if fs != [] {
      var n := |fs| - 1;
      IdSetMembers(fs[..n]);
      forall x ensures x in IdSet(fs) <==> exists k :: 0 <= k < |fs| && fs[k].id == x {
        if x in IdSet(fs[..n]) {
          var k :| 0 <= k < n && fs[..n][k].id == x;
          assert fs[k].id == x;
        }
        if exists k :: 0 <= k < |fs| && fs[k].id == x {
          var k :| 0 <= k < |fs| && fs[k].id == x;
          if k < n {
            assert fs[..n][k].id == x;
          }
        }
      }
    }
  }

  lemma IdSetDone(fs: seq<Future>)
    requires IdsIncreasing(fs)
    ensures forall k :: 0 <= k < |fs| ==> (fs[k].id in IdSet(DoneOf(fs)) <==> IsDone(fs[k]))
  {
    DoneOfFacts(fs);
    var d := DoneOf(fs);
    IdSetMembers(d);
    forall k | 0 <= k < |fs| ensures fs[k].id in IdSet(d) <==> IsDone(fs[k]) {
      if IsDone(fs[k]) {
        DoneContains(fs, k);
        var m :| 0 <= m < |d| && d[m] == fs[k];
        assert fs[k].id == d[m].id;
      }
      if fs[k].id in IdSet(d) {
        var m :| 0 <= m < |d| && d[m].id == fs[k].id;
        assert d[m] in fs;
        var j :| 0 <= j < |fs| && fs[j] == d[m];
        assert j == k;
      }
    }
  }

  lemma {:induction false} DoneContains(fs: seq<Future>, k: nat)
    requires k < |fs| && IsDone(fs[k])
    ensures fs[k] in DoneOf(fs)
  {
    if k > 0 {
      DoneContains(fs[1..], k - 1);
    }
  }

  lemma IdSetSnoc(fs: seq<Future>, k: nat)
    requires k < |fs|
    ensures IdSet(fs[..k + 1]) == IdSet(fs[..k]) + {fs[k].id}
  {
    assert fs[..k + 1][..k] == fs[..k];
  }

  // ---------------------------------------------------------------------
  // What one pass does, as a function of the list before it

  lemma {:induction false} ReplacementsFacts(done: seq<Future>, refused: seq<bool>, next: nat)
    requires |refused| == |done|
    ensures var reps := Replacements(done, refused, next);
            && (forall k :: 0 <= k < |reps| ==> reps[k].id == next + k && reps[k].state.Pending?)
            && |reps| + |Lost(done, refused)| == |done|
  {
    if done != [] {
      var n := |done| - 1;
      ReplacementsFacts(done[..n], refused[..n], next);
    }
  }

  /** A last processed future that is resubmitted adds one replacement. */
  lemma ReplacementsResubmitted(done: seq<Future>, refused: seq<bool>, next: nat)
    requires |refused| == |done| && done != []
    requires Resubmitted(done[|done| - 1], refused[|done| - 1])
    ensures Replacements(done, refused, next)
            == Replacements(done[..|done| - 1], refused[..|done| - 1], next)
               + [Future(next + |Replacements(done[..|done| - 1], refused[..|done| - 1], next)|,
                         done[|done| - 1].state.completion.outcome.worker, Pending)]
    ensures Lost(done, refused) == Lost(done[..|done| - 1], refused[..|done| - 1])
  {
  }

  /** A last processed future that is not resubmitted is lost. */
  lemma ReplacementsDropped(done: seq<Future>, refused: seq<bool>, next: nat)
    requires |refused| == |done| && done != []
    requires !Resubmitted(done[|done| - 1], refused[|done| - 1])
    ensures Replacements(done, refused, next) == Replacements(done[..|done| - 1], refused[..|done| - 1], next)
    ensures Lost(done, refused) == Lost(done[..|done| - 1], refused[..|done| - 1]) + [done[|done| - 1]]
  {
  }

  lemma WorkersResubmitted(done: seq<Future>, refused: seq<bool>, next: nat)
    requires |refused| == |done| && done != []
    requires Faithful(done[|done| - 1]) && Resubmitted(done[|done| - 1], refused[|done| - 1])
    ensures Workers(Replacements(done, refused, next))
            == Workers(Replacements(done[..|done| - 1], refused[..|done| - 1], next)) + Workers([done[|done| - 1]])
    ensures Lost(done, refused) == Lost(done[..|done| - 1], refused[..|done| - 1])
  {
    var n := |done| - 1;
    var earlier := Replacements(done[..n], refused[..n], next);
    ReplacementsResubmitted(done, refused, next);
    WorkersAppend(earlier, [Future(next + |earlier|, done[n].state.completion.outcome.worker, Pending)]);
  }

  lemma WorkersDropped(done: seq<Future>, refused: seq<bool>, next: nat)
    requires |refused| == |done| && done != []
    requires !Resubmitted(done[|done| - 1], refused[|done| - 1])
    ensures Replacements(done, refused, next) == Replacements(done[..|done| - 1], refused[..|done| - 1], next)
    ensures Workers(Lost(done, refused))
            == Workers(Lost(done[..|done| - 1], refused[..|done| - 1])) + Workers([done[|done| - 1]])
  {
    var n := |done| - 1;
    ReplacementsDropped(done, refused, next);
    WorkersAppend(Lost(done[..n], refused[..n]), [done[n]]);
  }

  /**
   * Each processed future either gets a replacement for the same worker
   * id or is lost: the worker ids of replacements and lost futures
   * together are those of the processed futures.
   */
  lemma {:induction false} ReplacementWorkers(done: seq<Future>, refused: seq<bool>, next: nat)
    requires |refused| == |done| && AllFaithful(done)
    ensures multiset(Workers(Replacements(done, refused, next))) + multiset(Workers(Lost(done, refused)))
            == multiset(Workers(done))
  {
    if done != [] {
      var n := |done| - 1;
      var f := done[n];
      PrefixFacts(done, n);
      ReplacementWorkers(done[..n], refused[..n], next);
      var wr := Workers(Replacements(done[..n], refused[..n], next));
      var wl := Workers(Lost(done[..n], refused[..n]));
      var wd := Workers(done[..n]);
      var wf := Workers([f]);
      WorkersSnoc(done);
      if Resubmitted(f, refused[n]) {
        WorkersResubmitted(done, refused, next);
      } else {
        WorkersDropped(done, refused, next);
      }
      MultisetShift(wr, wl, wd, wf,
                    Workers(Replacements(done, refused, next)), Workers(Lost(done, refused)), Workers(done));
    }
  }

  lemma WorkersSnoc(fs: seq<Future>)
    requires fs != []
    ensures Workers(fs) == Workers(fs[..|fs| - 1]) + Workers([fs[|fs| - 1]])
  {
    WorkersAppend(fs[..|fs| - 1], [fs[|fs| - 1]]);
    assert fs[..|fs| - 1] + [fs[|fs| - 1]] == fs;
  }

  lemma PrefixFacts(done: seq<Future>, n: nat)
    requires n < |done| && AllFaithful(done)
    ensures AllFaithful(done[..n]) && Faithful(done[n])
  {
    assert forall k :: 0 <= k < n ==> done[..n][k] == done[k];
  }

  /** Adding the same worker ids on both sides keeps a multiset equation. */
  lemma MultisetShift(a: seq<int>, b: seq<int>, c: seq<int>, x: seq<int>,
                      a': seq<int>, b': seq<int>, c': seq<int>)
    requires multiset(a) + multiset(b) == multiset(c)
    requires (a' == a + x && b' == b) || (a' == a && b' == b + x)
    requires c' == c + x
    ensures multiset(a') + multiset(b') == multiset(c')
  {
  }


  /** The list after a pass: what the scan left, then the replacements. */
  function AfterPass(fs: seq<Future>, refused: seq<bool>, next: nat): seq<Future>
    requires |refused| == |DoneOf(fs)|
  {
    PendingOf(fs) + Replacements(DoneOf(fs), refused, next)
  }

  /**
   * A pass changes the pool only by the lost futures: the list keeps its
   * length less one per lost future, and its multiset of worker ids less
   * theirs.
   */
  lemma PassKeepsPool(fs: seq<Future>, refused: seq<bool>, next: nat)
    requires |refused| == |DoneOf(fs)| && AllFaithful(fs)
    ensures var lost := Lost(DoneOf(fs), refused);
            && |AfterPass(fs, refused, next)| + |lost| == |fs|
            && multiset(Workers(AfterPass(fs, refused, next))) + multiset(Workers(lost))
               == multiset(Workers(fs))
  {
    DoneOfFacts(fs);
    var d := DoneOf(fs);
    assert AllFaithful(d) by {
      forall k | 0 <= k < |d| ensures Faithful(d[k]) {
        assert d[k] in fs;
      }
    }
    ScanPartitions(fs);
    ReplacementsFacts(d, refused, next);
    ReplacementWorkers(d, refused, next);
    WorkersAppend(PendingOf(fs), Replacements(d, refused, next));
  }

  lemma {:induction false} NoLoss(done: seq<Future>, refused: seq<bool>)
    requires |refused| == |done|
    ensures Lost(done, refused) == [] <==>
            forall k :: 0 <= k < |done| ==> Resubmitted(done[k], refused[k])
  {
    if done != [] {
      var n := |done| - 1;
      NoLoss(done[..n], refused[..n]);
      assert forall k :: 0 <= k < n ==> done[..n][k] == done[k] && refused[..n][k] == refused[k];
    }
  }

  /**
   * On the normal path (every finished future returned and was
   * resubmitted) a pass keeps the pool size and its multiset of worker
   * ids; each lost future shrinks the pool by one.
   */
  lemma PassOnNormalPath(fs: seq<Future>, refused: seq<bool>, next: nat)
    requires |refused| == |DoneOf(fs)| && AllFaithful(fs)
    ensures (forall k :: 0 <= k < |refused| ==> Resubmitted(DoneOf(fs)[k], refused[k]))
            ==> |AfterPass(fs, refused, next)| == |fs|
                && multiset(Workers(AfterPass(fs, refused, next))) == multiset(Workers(fs))
    ensures (exists k :: 0 <= k < |refused| && !Resubmitted(DoneOf(fs)[k], refused[k]))
            ==> |AfterPass(fs, refused, next)| < |fs|
  {
    DoneOfFacts(fs);
    PassKeepsPool(fs, refused, next);
    NoLoss(DoneOf(fs), refused);
  }

  /** Recording keeps `total == success + failed`. */
  lemma {:induction false} RecordAllBalanced(t: Tally, done: seq<Future>, refused: seq<bool>)
    requires |refused| == |done| && Balanced(t)
    ensures Balanced(RecordAll(t, done, refused))
  {
    if done != [] {
      var n := |done| - 1;
      RecordAllBalanced(t, done[..n], refused[..n]);
    }
  }

  /** The number of processed futures that returned a successful outcome. */
  function Successes(done: seq<Future>): nat
  {
    if done == [] then 0
    else
      var n := |done| - 1;
      var c := ResultOf(done[n]);
      Successes(done[..n]) + (if c.Returned? && c.outcome.success then 1 else 0)
  }

  /** The number of processed futures counted twice because resubmission raised. */
  function Refusals(done: seq<Future>, refused: seq<bool>): nat
    requires |refused| == |done|
  {
    if done == [] then 0
    else
      var n := |done| - 1;
      Refusals(done[..n], refused[..n])
      + (if ResultOf(done[n]).Returned? && refused[n] then 1 else 0)
  }

  /**
   * A pass adds one request per processed future, plus one for each whose
   * resubmission raised; successes grow by the successful outcomes and
   * the rest goes to `failed`. No counter ever decreases.
   */
  lemma {:induction false} RecordAllCounts(t: Tally, done: seq<Future>, refused: seq<bool>)
    requires |refused| == |done|
    ensures var r := RecordAll(t, done, refused);
            && r.total == t.total + |done| + Refusals(done, refused)
            && r.success == t.success + Successes(done)
            && r.failed == t.failed + |done| + Refusals(done, refused) - Successes(done)
            && r.total >= t.total && r.success >= t.success && r.failed >= t.failed
  {
    if done != [] {
      var n := |done| - 1;
      RecordAllCounts(t, done[..n], refused[..n]);
      SuccessesBound(done[..n]);
    }
  }

  lemma {:induction false} SuccessesBound(done: seq<Future>)
    ensures Successes(done) <= |done|
  {
    if done != [] {
      SuccessesBound(done[..|done| - 1]);
    }
  }

  /** The initial batch: one pending future per worker id `0 .. n-1`. */
  function InitialPool(n: nat): (fs: seq<Future>)
    ensures |fs| == n
    ensures forall i :: 0 <= i < n ==> fs[i] == Future(i, i, Pending)
  {
    seq(n, i requires 0 <= i < n => Future(i, i, Pending))
  }

  /** Processing the k-th finished future extends the replacements by its resubmission. */
  lemma StepReplacements(done: seq<Future>, refused: seq<bool>, next: nat, k: nat)
    requires |refused| == |done| && k < |done|
    ensures var earlier := Replacements(done[..k], refused[..k], next);
            Replacements(done[..k + 1], refused[..k + 1], next)
            == earlier + Resubmission(done[k], refused[k], next + |earlier|)
  {
    assert done[..k + 1][..k] == done[..k] && refused[..k + 1][..k] == refused[..k];
  }

  /** Processing the k-th finished future applies `Record` once more. */
  lemma StepRecord(t: Tally, done: seq<Future>, refused: seq<bool>, k: nat)
    requires |refused| == |done| && k < |done|
    ensures RecordAll(t, done[..k + 1], refused[..k + 1])
            == Record(RecordAll(t, done[..k], refused[..k]), ResultOf(done[k]), refused[k])
  {
    assert done[..k + 1][..k] == done[..k] && refused[..k + 1][..k] == refused[..k];
  }

  /**
   * `futures.remove(f)` on the list during a pass: the not yet processed
   * part of the original list loses `f`, the replacements stay.
   */
  /** The k-th future found done is still in the list when its turn comes. */
  lemma DoneStillListed(start: seq<Future>, done: seq<Future>, k: nat)
    requires IdsIncreasing(start) && done == DoneOf(start) && k < |done|
    ensures done[k].id !in IdSet(done[..k])
    ensures done[k] in Keep(start, IdSet(done[..k]))
  {
    DoneOfFacts(start);
    var f := done[k];
    assert f.id !in IdSet(done[..k]) by {
      IdSetMembers(done[..k]);
      forall m | 0 <= m < k ensures done[..k][m].id != f.id {
        assert done[m].id < done[k].id;
      }
    }
    KeepHas(start, IdSet(done[..k]), f);
  }

  lemma StepRemove(start: seq<Future>, done: seq<Future>, k: nat, reps: seq<Future>)
    requires IdsIncreasing(start) && done == DoneOf(start) && k < |done|
    ensures Remove(Keep(start, IdSet(done[..k])) + reps, done[k].id)
            == Keep(start, IdSet(done[..k + 1])) + reps
  {
    var f := done[k];
    DoneStillListed(start, done, k);
    var kept := Keep(start, IdSet(done[..k]));
    var j :| 0 <= j < |kept| && kept[j] == f;
    RemoveFront(kept, reps, f.id);
    RemoveKeep(start, IdSet(done[..k]), f.id);
    IdSetSnoc(done, k);
  }

  /** The list after a pass satisfies the list part of `RunLoop.Valid`. */
  lemma AfterPassValid(fs: seq<Future>, refused: seq<bool>, next: nat)
    requires |refused| == |DoneOf(fs)|
    requires IdsIncreasing(fs) && IdsBelow(fs, next) && AllFaithful(fs)
    ensures var after := AfterPass(fs, refused, next);
            && IdsIncreasing(after)
            && IdsBelow(after, next + |Replacements(DoneOf(fs), refused, next)|)
            && AllFaithful(after)
  {
    var pending := PendingOf(fs);
    var reps := Replacements(DoneOf(fs), refused, next);
    PendingOfFacts(fs, next);
    ReplacementsFacts(DoneOf(fs), refused, next);
    var after := pending + reps;
    assert IdsIncreasing(after) by {
      forall i, j | 0 <= i < j < |after| ensures after[i].id < after[j].id {
        if j >= |pending| && i < |pending| {
          assert after[i] == pending[i] && after[j] == reps[j - |pending|];
        }
      }
    }
    assert forall k :: 0 <= k < |after| ==> Faithful(after[k]) by {
      forall k | 0 <= k < |after| ensures Faithful(after[k]) {
        if k >= |pending| {
          assert after[k] == reps[k - |pending|];
        }
      }
    }
  }

  /** What `RunLoop.ProcessOne` does to the list keeps the loop invariant of `RunLoop.ProcessDone`. */
  lemma PassStep(start: seq<Future>, done: seq<Future>, refused: seq<bool>, next: nat, k: nat)
    requires IdsIncreasing(start) && done == DoneOf(start) && |refused| == |done| && k < |done|
    ensures Remove(Keep(start, IdSet(done[..k])) + Replacements(done[..k], refused[..k], next)
                   + Resubmission(done[k], refused[k], next + |Replacements(done[..k], refused[..k], next)|),
                   done[k].id)
            == Keep(start, IdSet(done[..k + 1])) + Replacements(done[..k + 1], refused[..k + 1], next)
    ensures next + |Replacements(done[..k], refused[..k], next)|
            + |Resubmission(done[k], refused[k], next + |Replacements(done[..k], refused[..k], next)|)|
            == next + |Replacements(done[..k + 1], refused[..k + 1], next)|
  {
    var reps := Replacements(done[..k], refused[..k], next);
    var extra := Resubmission(done[k], refused[k], next + |reps|);
    StepReplacements(done, refused, next, k);
    StepRemove(start, done, k, Replacements(done[..k + 1], refused[..k + 1], next));
    ConcatAssoc(Keep(start, IdSet(done[..k])), reps, extra);
  }

  /** Keeping the invariant of a pass: it holds before the first future. */
  lemma PassStart(start: seq<Future>, done: seq<Future>, refused: seq<bool>, next: nat)
    requires |refused| == |done|
    ensures Keep(start, IdSet(done[..0])) + Replacements(done[..0], refused[..0], next) == start
  {
    assert done[..0] == [] && refused[..0] == [] && IdSet([]) == {};
    KeepNone(start);
  }

  /** After the last future the filtered original list is what the scan left pending. */
  lemma PassEnd(start: seq<Future>, done: seq<Future>, refused: seq<bool>)
    requires IdsIncreasing(start) && done == DoneOf(start) && |refused| == |done|
    ensures done[..|done|] == done && refused[..|refused|] == refused
    ensures Keep(start, IdSet(done)) == PendingOf(start)
  {
    assert done[..|done|] == done && refused[..|refused|] == refused;
    IdSetDone(start);
    KeepPending(start, IdSet(done));
  }


  /** The list, the next identity and the counters while a pass runs. */
  datatype PassState = PassState(futures: seq<Future>, nextId: nat, tally: Tally)

  /**
   * One iteration of the loop over the futures found done: count the
   * result, append the resubmission (if any) under the next identity, and
   * remove the processed future.
   */
  function Step(st: PassState, f: Future, refused: bool): PassState
  {
    var extra := Resubmission(f, refused, st.nextId);
    PassState(Remove(st.futures + extra, f.id), st.nextId + |extra|,
              Record(st.tally, ResultOf(f), refused))
  }

  /** The iterations over `done`, in list order. */
  function Steps(st: PassState, done: seq<Future>, refused: seq<bool>): PassState
    requires |refused| == |done|
  {
    if done == [] then st
    else
      var n := |done| - 1;
      Step(Steps(st, done[..n], refused[..n]), done[n], refused[n])
  }

  lemma StepsSnoc(st: PassState, done: seq<Future>, refused: seq<bool>, k: nat)
    requires |refused| == |done| && k < |done|
    ensures Steps(st, done[..k + 1], refused[..k + 1])
            == Step(Steps(st, done[..k], refused[..k]), done[k], refused[k])
  {
    assert done[..k + 1][..k] == done[..k] && refused[..k + 1][..k] == refused[..k];
  }

  /**
   * The iterations over the first `k` futures found done leave the not
   * yet processed part of the original list followed by the
   * replacements, the identities after theirs, and the counters recorded.
   */
  lemma {:induction false} StepsArePass(start: seq<Future>, done: seq<Future>, refused: seq<bool>,
                                        next: nat, t: Tally, k: nat)
    requires IdsIncreasing(start) && done == DoneOf(start) && |refused| == |done| && k <= |done|
    ensures Steps(PassState(start, next, t), done[..k], refused[..k]) == PassAt(start, done, refused, next, t, k)
  {
    if k == 0 {
      PassStart(start, done, refused, next);
    } else {
      StepsArePass(start, done, refused, next, t, k - 1);
      StepAdvance(start, done, refused, next, t, k - 1);
    }
  }

  lemma StepAdvance(start: seq<Future>, done: seq<Future>, refused: seq<bool>, next: nat, t: Tally, j: nat)
    requires IdsIncreasing(start) && done == DoneOf(start) && |refused| == |done| && j < |done|
    requires Steps(PassState(start, next, t), done[..j], refused[..j]) == PassAt(start, done, refused, next, t, j)
    ensures Steps(PassState(start, next, t), done[..j + 1], refused[..j + 1]) == PassAt(start, done, refused, next, t, j + 1)
  {
    StepsSnoc(PassState(start, next, t), done, refused, j);
    PassStep(start, done, refused, next, j);
    StepKeepsPass(start, done, refused, next, t, j);
  }

  function PassAt(start: seq<Future>, done: seq<Future>, refused: seq<bool>, next: nat, t: Tally, k: nat): PassState
    requires |refused| == |done| && k <= |done|
  {
    var reps := Replacements(done[..k], refused[..k], next);
    PassState(Keep(start, IdSet(done[..k])) + reps, next + |reps|, RecordAll(t, done[..k], refused[..k]))
  }

  lemma StepKeepsPass(start: seq<Future>, done: seq<Future>, refused: seq<bool>, next: nat, t: Tally, j: nat)
    requires |refused| == |done| && j < |done|
    requires Remove(Keep(start, IdSet(done[..j])) + Replacements(done[..j], refused[..j], next)
                    + Resubmission(done[j], refused[j], next + |Replacements(done[..j], refused[..j], next)|),
                    done[j].id)
             == Keep(start, IdSet(done[..j + 1])) + Replacements(done[..j + 1], refused[..j + 1], next)
    requires next + |Replacements(done[..j], refused[..j], next)|
             + |Resubmission(done[j], refused[j], next + |Replacements(done[..j], refused[..j], next)|)|
             == next + |Replacements(done[..j + 1], refused[..j + 1], next)|
    ensures Step(PassAt(start, done, refused, next, t, j), done[j], refused[j])
            == PassAt(start, done, refused, next, t, j + 1)
  {
    StepRecord(t, done, refused, j);
    StepOn(Keep(start, IdSet(done[..j])), Replacements(done[..j], refused[..j], next),
           Keep(start, IdSet(done[..j + 1])), Replacements(done[..j + 1], refused[..j + 1], next),
           next, RecordAll(t, done[..j], refused[..j]), RecordAll(t, done[..j + 1], refused[..j + 1]),
           done[j], refused[j]);
  }

  /** `Step` on a state of the shape the invariant of a pass describes. */
  lemma StepOn(kept: seq<Future>, reps: seq<Future>, kept': seq<Future>, reps': seq<Future>,
               next: nat, t: Tally, t': Tally, f: Future, refused: bool)
    requires Remove(kept + reps + Resubmission(f, refused, next + |reps|), f.id) == kept' + reps'
    requires next + |reps| + |Resubmission(f, refused, next + |reps|)| == next + |reps'|
    requires t' == Record(t, ResultOf(f), refused)
    ensures Step(PassState(kept + reps, next + |reps|, t), f, refused) == PassState(kept' + reps', next + |reps'|, t')
  {
  }

  /** The main thread's side of `run_test`. */
  class RunLoop {
    /** `futures`, in submission order. */
    var futures: seq<Future>
    /** The identity the next submitted future gets. */
    var nextId: nat
    var total: nat
    var success: nat
    var failed: nat

    function Counters(): Tally
      reads this
    {
      Tally(total, success, failed)
    }

    ghost predicate Valid()
      reads this
    {
      && IdsIncreasing(futures)
      && IdsBelow(futures, nextId)
      && AllFaithful(futures)
      && total == success + failed
    }

    /**
     * The start of `run_test`: zero counters, and the loop that submits
     * `make_request(i)` for every `i` in `range(concurrent_users)`.
     */
    constructor (concurrentUsers: nat)
      requires concurrentUsers >= 1 // `ThreadPoolExecutor(max_workers=0)` raises
      ensures Valid()
      ensures Counters() == Tally(0, 0, 0)
      ensures futures == InitialPool(concurrentUsers) && nextId == concurrentUsers
    {
      var submitted: seq<Future> := [];
      for i := 0 to concurrentUsers
        invariant submitted == InitialPool(i)
      {
        submitted := submitted + [Future(i, i, Pending)];
      }
      total, success, failed := 0, 0, 0;
      futures, nextId := submitted, concurrentUsers;
    }

    /**
     * A pool thread finishing the k-th future: `make_request` returns its
     * dict, built from what `requests.get` did. `None` makes
     * `future.result()` raise an `Exception`, the case the loop's
     * `except Exception` handles; `make_request` catches every `Exception`
     * itself, so no response of the server leads there.
     */
    method Finish(k: nat, response: Option<Response>)
      requires Valid() && k < |futures| && futures[k].state.Pending?
      modifies this
      ensures Valid()
      ensures futures == old(futures)[k := old(futures)[k].(state := Done(
                if response.Some? then Returned(MakeRequest(old(futures)[k].worker, response.value))
                else Raised))]
      ensures nextId == old(nextId) && Counters() == old(Counters())
    {
      var f := futures[k];
      var c := if response.Some? then Returned(MakeRequest(f.worker, response.value)) else Raised;
      futures := futures[k := f.(state := Done(c))];
    }

    function State(): PassState
      reads this
    {
      PassState(futures, nextId, Counters())
    }

    /**
     * The body of the loop over the futures found done: count the result,
     * resubmit the worker (unless `executor.submit` raises, as `refused`
     * says), and remove the processed future from the list.
     */
    method ProcessOne(f: Future, refused: bool)
      requires IsDone(f) && f in futures // `list.remove` raises for a missing entry
      modifies this
      ensures State() == Step(old(State()), f, refused)
    {
      ghost var same := futures + [];
      assert same == futures;
      match f.state.completion {
        case Returned(result) =>
          total := total + 1;
          if result.success {
            success := success + 1;
          } else {
            failed := failed + 1;
          }
          if !refused {
            futures := futures + [Future(nextId, result.worker, Pending)];
            nextId := nextId + 1;
          } else {
            failed := failed + 1;
            total := total + 1;
          }
        case Raised =>
          failed := failed + 1;
          total := total + 1;
      }
      futures := Remove(futures, f.id);
    }

    /**
     * One scan of the main loop: every future found done is processed in
     * list order. `stop_test` is never set while the loop runs, so the
     * resubmission guard always holds.
     */
    method ProcessDone(refused: seq<bool>)
      requires Valid() && |refused| == |DoneOf(futures)|
      modifies this
      ensures Valid()
      ensures futures == AfterPass(old(futures), refused, old(nextId))
      ensures Counters() == RecordAll(old(Counters()), DoneOf(old(futures)), refused)
      ensures nextId == old(nextId) + |Replacements(DoneOf(old(futures)), refused, old(nextId))|
    {
      var done := DoneOf(futures);
      ghost var st0 := State();
      var k := 0;
      assert done[..0] == [] && refused[..0] == [];
      while k < |done|
        invariant 0 <= k <= |done|
        invariant State() == Steps(st0, done[..k], refused[..k])
      {
        StepsSnoc(st0, done, refused, k);
        StepsArePass(st0.futures, done, refused, st0.nextId, st0.tally, k);
        DoneStillListed(st0.futures, done, k);
        ProcessOne(done[k], refused[k]);
        k := k + 1;
      }
      StepsArePass(st0.futures, done, refused, st0.nextId, st0.tally, |done|);
      PassEnd(st0.futures, done, refused);
      AfterPassValid(st0.futures, refused, st0.nextId);
      RecordAllBalanced(st0.tally, done, refused);
    }
  }

  /**
   * Whatever the futures return and whatever resubmission does, a pass
   * keeps `total == success + failed`, never lowers a counter, and adds
   * at least one request per processed future.
   */
  lemma PassCounters(t: Tally, fs: seq<Future>, refused: seq<bool>)
    requires |refused| == |DoneOf(fs)| && Balanced(t)
    ensures var r := RecordAll(t, DoneOf(fs), refused);
            && Balanced(r)
            && r.total >= t.total + |DoneOf(fs)|
            && r.success >= t.success && r.failed >= t.failed
  {
    DoneOfFacts(fs);
    RecordAllBalanced(t, DoneOf(fs), refused);
    RecordAllCounts(t, DoneOf(fs), refused);
  }
}
