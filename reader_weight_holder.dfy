/**
  The per-reader trust weights of src/reader_weight_holder.py.

  Every known reader owns a fixed-length FIFO history of weight observations
  (oldest first) and a current weight, the average of that history. The first
  half of the module states this as functions over a `Snapshot` of the two
  tables; the class `ReaderWeightHolder` at the end keeps the tables as
  fields and is proved against those functions.
 */
module ReaderWeights {
  import opened Wrappers

  // ---------------------------------------------------------------------
  // Histories
  // ---------------------------------------------------------------------

  /** Left-to-right sum of a history, as Python's built-in `sum` adds it. */
  function Sum(h: seq<real>): real
  {
    if |h| == 0 then 0.0 else Sum(h[..|h| - 1]) + h[|h| - 1]
  }

  /** Arithmetic mean of a non-empty history. */
  function Mean(h: seq<real>): real
    requires |h| > 0
  {
    Sum(h) / |h| as real
  }

  /** `n` copies of `v` (numpy's repeat, turned into a list). */
  function Repeat(v: real, n: nat): seq<real>
  {
    seq(n, _ => v)
  }

  /** FIFO step: evict the oldest observation, append the newest. */
  function Slide(h: seq<real>, v: real): (r: seq<real>)
    requires |h| > 0
    ensures |r| == |h|
    ensures r[|h| - 1] == v
    ensures forall i :: 0 <= i < |h| - 1 ==> r[i] == h[i + 1]
  {
    h[1..] + [v]
  }

  /** Summing from the front gives the same total as Python's left-to-right sum. */
  lemma {:induction false} SumCons(x: real, t: seq<real>)
    ensures Sum([x] + t) == x + Sum(t)
    decreases |t|
  {
    if |t| > 0 {
      var w := [x] + t;
      assert w[..|w| - 1] == [x] + t[..|t| - 1];
      SumCons(x, t[..|t| - 1]);
    }
  }

  /** n copies of v add up to n * v. */
  lemma {:induction false} SumRepeat(v: real, n: nat)
    ensures Sum(Repeat(v, n)) == n as real * v
  {
    if n > 0 {
      assert Repeat(v, n)[..n - 1] == Repeat(v, n - 1);
      SumRepeat(v, n - 1);
    }
  }

  /** The average of a freshly reset history is the initial mean. */
  lemma MeanRepeat(v: real, n: nat)
    requires n > 0
    ensures Mean(Repeat(v, n)) == v
  {
    SumRepeat(v, n);
  }

  /** A slide changes the running sum by the new value minus the evicted one. */
  lemma SlideSum(h: seq<real>, v: real)
    requires |h| > 0
    ensures Sum(Slide(h, v)) == Sum(h) - h[0] + v
  {
    var s := Slide(h, v);
    assert s[..|s| - 1] == h[1..];
    assert h == [h[0]] + h[1..];
    SumCons(h[0], h[1..]);
  }

  // ---------------------------------------------------------------------
  // The two tables, as values
  // ---------------------------------------------------------------------

  /** The lookup failures of the source: KeyError and `pop` from an empty list. */
  datatype HolderError<Id> = UnknownReader(id: Id) | EmptyHistory(id: Id)

  /** The holder's `weights` and `past_weights` dictionaries. */
  datatype Snapshot<Id> = Snapshot(weights: map<Id, real>, history: map<Id, seq<real>>)

  /** The tables after a batch of updates, and the error that stopped it, if any. */
  datatype Outcome<Id> = Outcome(state: Snapshot<Id>, error: Option<HolderError<Id>>)

  /** The distinct ids of the `reader_id` column. */
  function KnownReaders<Id>(readers: seq<Id>): set<Id>
  {
    set r | r in readers
  }

  /**
    The holder's invariant: both tables have exactly the known readers as
    keys, every history holds `window` observations, and (for a non-empty
    window) every weight is the average of its reader's history.
   */
  ghost predicate Wellformed<Id>(s: Snapshot<Id>, known: set<Id>, window: nat)
  {
    && s.weights.Keys == known
    && s.history.Keys == known
    && (forall r :: r in s.history ==> |s.history[r]| == window)
    && (window > 0 ==> forall r :: r in s.history ==> s.weights[r] == Mean(s.history[r]))
  }

  /** Reader `x` has the same entries (or the same absence) in both snapshots. */
  ghost predicate SameAt<Id>(s: Snapshot<Id>, t: Snapshot<Id>, x: Id)
  {
    && (x in s.weights <==> x in t.weights)
    && (x in s.weights ==> s.weights[x] == t.weights[x])
    && (x in s.history <==> x in t.history)
    && (x in s.history ==> s.history[x] == t.history[x])
  }

  /** `reset`: every reader gets `window` copies of the initial mean, and the initial mean as weight. */
  function ResetSnapshot<Id>(readers: seq<Id>, window: nat, initMean: real): (r: Snapshot<Id>)
    ensures r.weights.Keys == KnownReaders(readers) && r.history.Keys == KnownReaders(readers)
    ensures forall x :: x in r.history ==> r.history[x] == Repeat(initMean, window) && |r.history[x]| == window
    ensures forall x :: x in r.weights ==> r.weights[x] == initMean
  {
    Snapshot(map r | r in readers :: initMean, map r | r in readers :: Repeat(initMean, window))
  }

  /** After a reset the invariant holds and every entry and weight is the initial mean. */
  lemma ResetSpec<Id>(readers: seq<Id>, window: nat, initMean: real)
    ensures Wellformed(ResetSnapshot(readers, window, initMean), KnownReaders(readers), window)
    ensures var s := ResetSnapshot(readers, window, initMean);
            forall r :: r in readers ==>
              && s.weights[r] == initMean
              && forall i :: 0 <= i < |s.history[r]| ==> s.history[r][i] == initMean
  {
    var s := ResetSnapshot(readers, window, initMean);
    if window > 0 {
      forall r | r in s.history
        ensures s.weights[r] == Mean(s.history[r])
      {
        MeanRepeat(initMean, window);
      }
    }
  }

  /** One `(reader_id, new_weight)` entry of `inserts`. */
  function InsertOne<Id>(s: Snapshot<Id>, id: Id, v: real): (r: Result<Snapshot<Id>, HolderError<Id>>)
    ensures r.Failure? <==> id !in s.history || |s.history[id]| == 0
    ensures r.Failure? ==> r.error.id == id
    ensures r.Success? ==> r.value.history.Keys == s.history.Keys && |r.value.history[id]| == |s.history[id]|
  {
    if id !in s.history then Failure(UnknownReader(id))
    else if |s.history[id]| == 0 then Failure(EmptyHistory(id))
    else
      var h := Slide(s.history[id], v);
      Success(Snapshot(s.weights[id := Mean(h)], s.history[id := h]))
  }

  /** An entry for a known reader with a non-empty window keeps the invariant. */
  lemma InsertOneKeepsWellformed<Id>(s: Snapshot<Id>, known: set<Id>, window: nat, id: Id, v: real)
    requires Wellformed(s, known, window)
    requires id in known && window > 0
    ensures InsertOne(s, id, v).Success? && Wellformed(InsertOne(s, id, v).value, known, window)
  {
    var h := Slide(s.history[id], v);
    var t := Snapshot(s.weights[id := Mean(h)], s.history[id := h]);
    assert InsertOne(s, id, v) == Success(t);
    assert t.weights.Keys == known && t.history.Keys == known;
    forall x | x in t.history
      ensures |t.history[x]| == window && t.weights[x] == Mean(t.history[x])
    {
      if x != id {
        assert t.history[x] == s.history[x] && t.weights[x] == s.weights[x];
      }
    }
  }

  /**
    A successful entry keeps the invariant, slides the reader's history and
    sets its weight to the new average; it fails exactly for an unknown
    reader or an empty window.
   */
  lemma InsertOneSpec<Id>(s: Snapshot<Id>, known: set<Id>, window: nat, id: Id, v: real)
    requires Wellformed(s, known, window)
    ensures var r := InsertOne(s, id, v);
            && (r == Failure(UnknownReader(id)) <==> id !in known)
            && (r == Failure(EmptyHistory(id)) <==> id in known && window == 0)
            && (r.Success? ==>
                  && Wellformed(r.value, known, window)
                  && r.value.history[id] == s.history[id][1..] + [v]
                  && r.value.weights[id] == Sum(r.value.history[id]) / window as real)
    ensures var r := InsertOne(s, id, v);
            r.Success? ==> forall x :: x != id ==> SameAt(s, r.value, x)
  {
    if id in known && window > 0 {
      InsertOneKeepsWellformed(s, known, window, id, v);
      var h := Slide(s.history[id], v);
      var t := Snapshot(s.weights[id := Mean(h)], s.history[id := h]);
      assert InsertOne(s, id, v) == Success(t);
      assert |h| == window && t.history[id] == h && t.weights[id] == Sum(h) / window as real;
      forall x | x != id ensures SameAt(s, t, x) {
      }
    }
  }

  /** `inserts`: the entries in order, stopping at the first that fails. */
  function InsertAll<Id>(s: Snapshot<Id>, items: seq<(Id, real)>): (o: Outcome<Id>)
    ensures o.state.history.Keys == s.history.Keys
    ensures o.error.Some? ==> o.error.value.id in Ids(items)
    decreases |items|
  {
    if |items| == 0 then Outcome(s, None)
    else
      match InsertOne(s, items[0].0, items[0].1)
      case Failure(e) => Outcome(s, Some(e))
      case Success(s') => InsertAll(s', items[1..])
  }

  /** One unfolding of InsertAll for the remaining batch `items[i..]`. */
  lemma InsertAllUnfold<Id>(s: Snapshot<Id>, items: seq<(Id, real)>, i: nat)
    requires i < |items|
    ensures var r := InsertOne(s, items[i].0, items[i].1);
            InsertAll(s, items[i..]) == if r.Failure? then Outcome(s, Some(r.error)) else InsertAll(r.value, items[i + 1..])
  {
    assert items[i..][0] == items[i] && items[i..][1..] == items[i + 1..];
  }

  /**
    The loop step of `Inserts`: once one entry has been applied as
    `InsertOne` says, either the batch has stopped with that entry's error,
    or the rest of the batch continues from the new tables.
   */
  lemma InsertAllStep<Id>(s: Snapshot<Id>, t: Snapshot<Id>, items: seq<(Id, real)>, i: nat,
                          error: Option<HolderError<Id>>)
    requires i < |items|
    requires var r := InsertOne(s, items[i].0, items[i].1);
             if r.Failure? then error == Some(r.error) && t == s else error == None && t == r.value
    ensures error.Some? ==> InsertAll(s, items[i..]) == Outcome(t, error)
    ensures error.None? ==> InsertAll(t, items[i + 1..]) == InsertAll(s, items[i..])
  {
    InsertAllUnfold(s, items, i);
  }

  /** The ids a batch mentions. */
  function Ids<Id>(items: seq<(Id, real)>): set<Id>
  {
    set k | 0 <= k < |items| :: items[k].0
  }

  /** A non-empty batch mentions its first id and the ids of the rest. */
  lemma IdsCons<Id>(items: seq<(Id, real)>)
    requires |items| > 0
    ensures Ids(items) == {items[0].0} + Ids(items[1..])
  {
    var rest := items[1..];
    forall y | y in Ids(items) ensures y in {items[0].0} + Ids(rest) {
      var k :| 0 <= k < |items| && items[k].0 == y;
      if k > 0 { assert rest[k - 1] == items[k]; }
    }
    forall y | y in Ids(rest) ensures y in Ids(items) {
      var k :| 0 <= k < |rest| && rest[k].0 == y;
      assert rest[k] == items[k + 1];
    }
  }

  /** The invariant survives any batch, even one that stops with an error. */
  lemma {:induction false} InsertAllWellformed<Id>(s: Snapshot<Id>, known: set<Id>, window: nat, items: seq<(Id, real)>)
    requires Wellformed(s, known, window)
    ensures Wellformed(InsertAll(s, items).state, known, window)
    decreases |items|
  {
    if |items| > 0 {
      InsertOneSpec(s, known, window, items[0].0, items[0].1);
      var r := InsertOne(s, items[0].0, items[0].1);
      if r.Success? {
        InsertAllWellformed(r.value, known, window, items[1..]);
      }
    }
  }

  /** Readers the batch does not mention keep their weight and history. */
  lemma {:induction false} InsertAllFrame<Id>(s: Snapshot<Id>, items: seq<(Id, real)>, x: Id)
    requires x !in Ids(items)
    ensures SameAt(s, InsertAll(s, items).state, x)
    decreases |items|
  {
    if |items| > 0 {
      assert items[0].0 in Ids(items);
      var r := InsertOne(s, items[0].0, items[0].1);
      if r.Success? {
        IdsCons(items);
        InsertAllFrame(r.value, items[1..], x);
      }
    }
  }

  /**
    A batch succeeds exactly when every reader it mentions is known and,
    unless it is empty, the window is non-empty.
   */
  lemma {:induction false} InsertAllSucceeds<Id>(s: Snapshot<Id>, known: set<Id>, window: nat, items: seq<(Id, real)>)
    requires Wellformed(s, known, window)
    ensures InsertAll(s, items).error == None <==> Ids(items) <= known && (items == [] || window > 0)
    decreases |items|
  {
    if |items| > 0 {
      IdsCons(items);
      InsertOneSpec(s, known, window, items[0].0, items[0].1);
      var r := InsertOne(s, items[0].0, items[0].1);
      if r.Success? {
        InsertAllSucceeds(r.value, known, window, items[1..]);
      }
    }
  }

  /** A prefix whose first entry succeeds continues from that entry's result. */
  lemma InsertAllPrefix<Id>(s: Snapshot<Id>, items: seq<(Id, real)>, n: nat)
    requires 0 < n <= |items|
    requires InsertOne(s, items[0].0, items[0].1).Success?
    ensures InsertAll(s, items[..n]) == InsertAll(InsertOne(s, items[0].0, items[0].1).value, items[1..][..n - 1])
  {
    var pre := items[..n];
    InsertAllUnfold(s, pre, 0);
    assert pre[0..] == pre && pre[0] == items[0] && pre[1..] == items[1..][..n - 1];
  }

  /**
    Entry `k` is where the batch stopped with outcome `o`: it names the failing
    reader; the entries before it all succeeded and produced `o.state`; and
    the entry itself fails on that state with the reported error.
   */
  ghost predicate FailsAt<Id>(s: Snapshot<Id>, items: seq<(Id, real)>, k: int, o: Outcome<Id>)
  {
    && 0 <= k < |items|
    && o.error.Some?
    && items[k].0 == o.error.value.id
    && InsertAll(s, items[..k]) == Outcome(o.state, None)
    && InsertOne(o.state, items[k].0, items[k].1) == Failure(o.error.value)
  }

  /** A stop in the tail, after a successful first entry, is a stop one place later in the batch. */
  lemma FailsAtCons<Id>(s: Snapshot<Id>, items: seq<(Id, real)>, k: int, o: Outcome<Id>)
    requires |items| > 0 && InsertOne(s, items[0].0, items[0].1).Success?
    requires FailsAt(InsertOne(s, items[0].0, items[0].1).value, items[1..], k, o)
    ensures FailsAt(s, items, k + 1, o)
  {
    InsertAllPrefix(s, items, k + 1);
    assert items[k + 1] == items[1..][k];
  }

  /**
    A batch that fails stops at an entry naming the failing reader: the
    entries before it have all been applied, and nothing after it.
   */
  lemma {:induction false} InsertAllStopsAtFailure<Id>(s: Snapshot<Id>, items: seq<(Id, real)>)
    ensures InsertAll(s, items).error.Some? ==> exists k :: FailsAt(s, items, k, InsertAll(s, items))
    decreases |items|
  {
    var o := InsertAll(s, items);
    if |items| > 0 && o.error.Some? {
      var r := InsertOne(s, items[0].0, items[0].1);
      if r.Failure? {
        assert items[..0] == [];
        assert FailsAt(s, items, 0, o);
      } else {
        assert o == InsertAll(r.value, items[1..]);
        InsertAllStopsAtFailure(r.value, items[1..]);
        var k :| FailsAt(r.value, items[1..], k, o);
        FailsAtCons(s, items, k, o);
      }
    }
  }

  /** No id appears twice (true of the items of a Python dict). */
  ghost predicate DistinctIds<Id>(items: seq<(Id, real)>)
  {
    forall i, j :: 0 <= i < j < |items| ==> items[i].0 != items[j].0
  }

  /** The first value a batch gives each of its ids. */
  ghost function FirstValue<Id>(items: seq<(Id, real)>, x: Id): real
    requires x in Ids(items)
    decreases |items|
  {
    if items[0].0 == x then items[0].1
    else
      assert x in Ids(items[1..]) by {
        var k :| 0 <= k < |items| && items[k].0 == x;
        assert items[1..][k - 1] == items[k];
      }
      FirstValue(items[1..], x)
  }

  /**
    The batch applied to every mentioned reader at once: each history slides
    in its own value and each weight becomes its history's new average;
    every other reader keeps its entries.
   */
  ghost function Pointwise<Id>(s: Snapshot<Id>, items: seq<(Id, real)>): Snapshot<Id>
    requires s.weights.Keys == s.history.Keys
    requires forall x :: x in s.history ==> |s.history[x]| > 0
  {
    var h := map x | x in s.history ::
      if x in Ids(items) then Slide(s.history[x], FirstValue(items, x)) else s.history[x];
    Snapshot(map x | x in s.weights :: if x in Ids(items) then Mean(h[x]) else s.weights[x], h)
  }

  /** The tail of a batch with distinct ids is distinct and does not mention its head. */
  lemma DistinctTail<Id>(items: seq<(Id, real)>)
    requires |items| > 0 && DistinctIds(items)
    ensures DistinctIds(items[1..]) && items[0].0 !in Ids(items[1..])
  {
    var rest := items[1..];
    forall i, j | 0 <= i < j < |rest| ensures rest[i].0 != rest[j].0 {
      assert rest[i] == items[i + 1] && rest[j] == items[j + 1];
    }
    forall k | 0 <= k < |rest| ensures rest[k].0 != items[0].0 {
      assert rest[k] == items[k + 1];
    }
  }

  /** Applying the head entry and then the rest pointwise is the pointwise update of the whole batch. */
  lemma PointwiseCons<Id>(s: Snapshot<Id>, items: seq<(Id, real)>)
    requires s.weights.Keys == s.history.Keys
    requires forall x :: x in s.history ==> |s.history[x]| > 0
    requires |items| > 0 && DistinctIds(items) && items[0].0 in s.history
    ensures InsertOne(s, items[0].0, items[0].1).Success?
    ensures var s1 := InsertOne(s, items[0].0, items[0].1).value;
            && s1.weights.Keys == s1.history.Keys
            && (forall x :: x in s1.history ==> |s1.history[x]| > 0)
            && Pointwise(s1, items[1..]) == Pointwise(s, items)
  {
    var (id, v) := items[0];
    var rest := items[1..];
    IdsCons(items);
    DistinctTail(items);
    var s1 := InsertOne(s, id, v).value;
    SlideSum(s.history[id], v);
    var p, p1 := Pointwise(s, items), Pointwise(s1, rest);
    forall x | x in s.history ensures p.history[x] == p1.history[x] {
      if x != id && x in Ids(rest) {
        assert FirstValue(items, x) == FirstValue(rest, x);
      }
    }
    assert p.history == p1.history;
    forall x | x in s.weights ensures p.weights[x] == p1.weights[x] {
      if x != id && x in Ids(rest) {
        assert p.history[x] == p1.history[x];
      }
    }
    assert p.weights == p1.weights;
  }

  /**
    A batch of distinct, known readers with a non-empty window succeeds and
    equals the pointwise update: the readers' updates do not interact.
   */
  lemma {:induction false} InsertAllPointwise<Id>(s: Snapshot<Id>, known: set<Id>, window: nat, items: seq<(Id, real)>)
    requires Wellformed(s, known, window)
    requires window > 0
    requires DistinctIds(items)
    requires Ids(items) <= known
    ensures InsertAll(s, items) == Outcome(Pointwise(s, items), None)
    decreases |items|
  {
    if |items| == 0 {
      assert Pointwise(s, items).history == s.history;
      assert Pointwise(s, items).weights == s.weights;
    } else {
      IdsCons(items);
      DistinctTail(items);
      InsertOneSpec(s, known, window, items[0].0, items[0].1);
      PointwiseCons(s, items);
      var s1 := InsertOne(s, items[0].0, items[0].1).value;
      InsertAllPointwise(s1, known, window, items[1..]);
    }
  }

  /** The value FirstValue picks is one the batch pairs with that id. */
  lemma {:induction false} FirstValueIsPaired<Id>(items: seq<(Id, real)>, x: Id)
    requires x in Ids(items)
    ensures (x, FirstValue(items, x)) in items
    decreases |items|
  {
    if items[0].0 != x {
      IdsCons(items);
      FirstValueIsPaired(items[1..], x);
    }
  }

  /** With distinct ids a reader is paired with one value only. */
  lemma DistinctPairsAgree<Id>(items: seq<(Id, real)>, x: Id, v: real, w: real)
    requires DistinctIds(items)
    requires (x, v) in items && (x, w) in items
    ensures v == w
  {
    var i :| 0 <= i < |items| && items[i] == (x, v);
    var j :| 0 <= j < |items| && items[j] == (x, w);
  }

  /** Two reorderings of one batch with distinct ids describe the same dictionary. */
  lemma SameDictionary<Id>(a: seq<(Id, real)>, b: seq<(Id, real)>)
    requires DistinctIds(a) && DistinctIds(b)
    requires multiset(a) == multiset(b)
    ensures Ids(a) == Ids(b)
    ensures forall x :: x in Ids(a) ==> FirstValue(a, x) == FirstValue(b, x)
  {
    forall x | x in Ids(a) ensures x in Ids(b) && FirstValue(a, x) == FirstValue(b, x) {
      FirstValueIsPaired(a, x);
      assert (x, FirstValue(a, x)) in multiset(b);
      var k :| 0 <= k < |b| && b[k] == (x, FirstValue(a, x));
      FirstValueIsPaired(b, x);
      DistinctPairsAgree(b, x, FirstValue(a, x), FirstValue(b, x));
    }
    forall x | x in Ids(b) ensures x in Ids(a) {
      var k :| 0 <= k < |b| && b[k].0 == x;
      assert b[k] in multiset(a);
      var j :| 0 <= j < |a| && a[j] == b[k];
    }
  }

  /** The pointwise update depends only on the dictionary a batch describes. */
  lemma PointwiseSameDictionary<Id>(s: Snapshot<Id>, a: seq<(Id, real)>, b: seq<(Id, real)>)
    requires s.weights.Keys == s.history.Keys
    requires forall x :: x in s.history ==> |s.history[x]| > 0
    requires Ids(a) == Ids(b)
    requires forall x :: x in Ids(a) ==> FirstValue(a, x) == FirstValue(b, x)
    ensures Pointwise(s, a) == Pointwise(s, b)
  {
    assert Pointwise(s, a).history == Pointwise(s, b).history;
    assert Pointwise(s, a).weights == Pointwise(s, b).weights;
  }

  /** Two orderings of the same dictionary's items give the same tables. */
  lemma InsertAllOrderIndependent<Id>(s: Snapshot<Id>, known: set<Id>, window: nat, a: seq<(Id, real)>, b: seq<(Id, real)>)
    requires Wellformed(s, known, window)
    requires window > 0
    requires DistinctIds(a) && DistinctIds(b)
    requires multiset(a) == multiset(b)
    requires Ids(a) <= known
    ensures InsertAll(s, a) == InsertAll(s, b)
  {
    SameDictionary(a, b);
    InsertAllPointwise(s, known, window, a);
    InsertAllPointwise(s, known, window, b);
    PointwiseSameDictionary(s, a, b);
  }

  /** A batch of one entry for a known reader with a non-empty history. */
  lemma InsertSingle<Id>(s: Snapshot<Id>, r: Id, v: real)
    requires r in s.history && |s.history[r]| > 0
    ensures var h := Slide(s.history[r], v);
            InsertAll(s, [(r, v)]) == Outcome(Snapshot(s.weights[r := Mean(h)], s.history[r := h]), None)
  {
    assert [(r, v)][1..] == [];
  }

  lemma SumOfThree(a: real, b: real, c: real)
    ensures Sum([a, b, c]) == a + b + c
  {
    assert [a, b, c][..2] == [a, b];
    assert [a, b][..1] == [a];
    assert [a][..0] == [];
    assert Sum([a]) == a;
    assert Sum([a, b]) == Sum([a]) + b;
    assert Sum([a, b, c]) == Sum([a, b]) + c;
  }

  /** One step of the worked example: slide 8 into a three-entry history. */
  lemma ExampleStep<Id>(r: Id, w: real, a: real, b: real, c: real)
    ensures InsertAll(Snapshot(map[r := w], map[r := [a, b, c]]), [(r, 8.0)])
         == Outcome(Snapshot(map[r := (b + c + 8.0) / 3.0], map[r := [b, c, 8.0]]), None)
  {
    var s := Snapshot(map[r := w], map[r := [a, b, c]]);
    assert Slide([a, b, c], 8.0) == [b, c, 8.0];
    SumOfThree(b, c, 8.0);
    assert Mean([b, c, 8.0]) == (b + c + 8.0) / 3.0;
    InsertSingle(s, r, 8.0);
    assert s.weights[r := (b + c + 8.0) / 3.0] == map[r := (b + c + 8.0) / 3.0];
    assert s.history[r := [b, c, 8.0]] == map[r := [b, c, 8.0]];
  }

  /**
    Window 3, initial mean 5, and the observation 8 inserted three times:
    the history goes [5,5,8], [5,8,8], [8,8,8] and the weight 6, 7, 8.
   */
  lemma WorkedExample<Id>(r: Id)
    ensures var s0 := ResetSnapshot([r], 3, 5.0);
            var s1 := Snapshot(map[r := 6.0], map[r := [5.0, 5.0, 8.0]]);
            var s2 := Snapshot(map[r := 7.0], map[r := [5.0, 8.0, 8.0]]);
            var s3 := Snapshot(map[r := 8.0], map[r := [8.0, 8.0, 8.0]]);
            && InsertAll(s0, [(r, 8.0)]) == Outcome(s1, None)
            && InsertAll(s1, [(r, 8.0)]) == Outcome(s2, None)
            && InsertAll(s2, [(r, 8.0)]) == Outcome(s3, None)
  {
    var s0 := ResetSnapshot([r], 3, 5.0);
    assert Repeat(5.0, 3) == [5.0, 5.0, 5.0];
    assert s0.history == map[r := [5.0, 5.0, 5.0]];
    assert s0.weights == map[r := 5.0];
    ExampleStep(r, 5.0, 5.0, 5.0, 5.0);
    ExampleStep(r, 6.0, 5.0, 5.0, 8.0);
    ExampleStep(r, 7.0, 5.0, 8.0, 8.0);
  }

  /** The reset tables of a holder of readers "a" and "b" with window 3 and initial mean 5. */
  lemma ExampleReset()
    ensures ResetSnapshot(["a", "b"], 3, 5.0) == ExampleTables(5.0, 5.0, 5.0, 5.0)
  {
    assert Repeat(5.0, 3) == [5.0, 5.0, 5.0];
  }

  /** The tables of the worked example: a's weight and history, b's reset tables. */
  function ExampleTables(w: real, x: real, y: real, z: real): Snapshot<string>
  {
    Snapshot(map["a" := w, "b" := 5.0], map["a" := [x, y, z], "b" := [5.0, 5.0, 5.0]])
  }

  /**
    One batch of the worked example on a holder of readers "a" and "b":
    8 slides into a's three-entry history, and b keeps its reset tables.
   */
  lemma ExampleBatch(w: real, x: real, y: real, z: real)
    ensures InsertAll(ExampleTables(w, x, y, z), [("a", 8.0)])
         == Outcome(ExampleTables((y + z + 8.0) / 3.0, y, z, 8.0), None)
  {
    var s := ExampleTables(w, x, y, z);
    assert Slide([x, y, z], 8.0) == [y, z, 8.0];
    SumOfThree(y, z, 8.0);
    assert Mean([y, z, 8.0]) == (y + z + 8.0) / 3.0;
    InsertSingle(s, "a", 8.0);
    assert s.weights["a" := (y + z + 8.0) / 3.0] == ExampleTables((y + z + 8.0) / 3.0, y, z, 8.0).weights;
    assert s.history["a" := [y, z, 8.0]] == ExampleTables((y + z + 8.0) / 3.0, y, z, 8.0).history;
  }

  // ---------------------------------------------------------------------
  // The holder object
  // ---------------------------------------------------------------------

  /**
    Trust weights per reader. The two tables are fields of each instance and
    are rebuilt by `Reset`; `Inserts` updates them entry by entry.
   */
  class ReaderWeightHolder<Id(==)> {
    /** The `reader_id` column the holder was built from. */
    var readers: seq<Id>
    /** Number of observations kept per reader. */
    var window: nat
    /** The value every history and weight starts from. */
    var initMean: real
    /** Current weight per reader. */
    var weights: map<Id, real>
    /** Past observations per reader, oldest first. */
    var pastWeights: map<Id, seq<real>>

    function Known(): set<Id>
      reads this
    {
      KnownReaders(readers)
    }

    function Tables(): Snapshot<Id>
      reads this
    {
      Snapshot(weights, pastWeights)
    }

    ghost predicate Valid()
      reads this
    {
      Wellformed(Tables(), Known(), window)
    }

    constructor (readers: seq<Id>, initMean: real, window: nat := 10)
      ensures Valid()
      ensures this.readers == readers && this.initMean == initMean && this.window == window
      ensures Tables() == ResetSnapshot(readers, window, initMean)
    {
      this.readers := readers;
      this.window := window;
      this.initMean := initMean;
      new;
      Reset();
    }

    /** Discards all observations: every reader starts again from the initial mean. */
    method Reset()
      modifies this`weights, this`pastWeights
      ensures Valid()
      ensures Tables() == ResetSnapshot(readers, window, initMean)
    {
      pastWeights := map r | r in readers :: Repeat(initMean, window);
      weights := map r | r in readers :: initMean;
      ResetSpec(readers, window, initMean);
    }

    /** The current weight of a reader; an unknown reader is a lookup error. */
    method Get(id: Id) returns (r: Result<real, HolderError<Id>>)
      ensures id in weights ==> r == Success(weights[id])
      ensures id !in weights ==> r == Failure(UnknownReader(id))
      ensures Valid() ==> (r.Success? <==> id in readers)
      ensures Valid() && window > 0 && r.Success? ==> r.value == Mean(pastWeights[id])
    {
      if id !in weights {
        return Failure(UnknownReader(id));
      }
      return Success(weights[id]);
    }

    /**
      One `(reader_id, new_weight)` entry: evicts the reader's oldest
      observation, appends the new one and recomputes the reader's weight
      as the history's sum divided by the window.
     */
    method InsertEntry(id: Id, v: real) returns (error: Option<HolderError<Id>>)
      requires Valid()
      modifies this`weights, this`pastWeights
      ensures Valid()
      ensures var r := InsertOne(old(Tables()), id, v);
              if r.Failure? then error == Some(r.error) && Tables() == old(Tables())
              else error == None && Tables() == r.value
    {
      InsertOneSpec(Tables(), Known(), window, id, v);
      if id !in pastWeights {
        return Some(UnknownReader(id));
      }
      if |pastWeights[id]| == 0 {
        return Some(EmptyHistory(id));
      }
      var h := pastWeights[id][1..] + [v];  // pop(0), then append
      pastWeights := pastWeights[id := h];
      weights := weights[id := Sum(h) / window as real];
      return None;
    }

    /**
      Applies a batch of new observations in order. The first entry that
      fails stops the batch and is reported; the entries before it stay
      applied.
     */
    method Inserts(newWeights: seq<(Id, real)>) returns (error: Option<HolderError<Id>>)
      requires Valid()
      modifies this`weights, this`pastWeights
      ensures Valid()
      ensures InsertAll(old(Tables()), newWeights) == Outcome(Tables(), error)
    {
      var i := 0;
      while i < |newWeights|
        invariant 0 <= i <= |newWeights|
        invariant Valid()
        invariant InsertAll(Tables(), newWeights[i..]) == InsertAll(old(Tables()), newWeights)
      {
        ghost var before := Tables();
        error := InsertEntry(newWeights[i].0, newWeights[i].1);
        InsertAllStep(before, Tables(), newWeights, i, error);
        if error.Some? {
          return;
        }
        i := i + 1;
      }
      return None;
    }
  }

  /** One batch of the worked example, applied to the object in place. */
  method ExampleInsert(holder: ReaderWeightHolder<string>, w: real, x: real, y: real, z: real)
    returns (error: Option<HolderError<string>>)
    requires holder.Valid() && holder.Tables() == ExampleTables(w, x, y, z)
    modifies holder`weights, holder`pastWeights
    ensures error == None
    ensures holder.Valid() && holder.Tables() == ExampleTables((y + z + 8.0) / 3.0, y, z, 8.0)
  {
    ExampleBatch(w, x, y, z);
    error := holder.Inserts([("a", 8.0)]);
  }

  /**
    The worked example through the object: window 3, initial mean 5 and the
    observation 8 inserted three times for reader "a", whose history goes
    [5,5,8], [5,8,8], [8,8,8] and weight 6, 7, 8; reader "b" is untouched.
   */
  method ExampleSession()
  {
    var holder := new ReaderWeightHolder(["a", "b"], 5.0, 3);
    ExampleReset();
    var e1 := ExampleInsert(holder, 5.0, 5.0, 5.0, 5.0);
    assert holder.Tables() == ExampleTables(6.0, 5.0, 5.0, 8.0);
    var e2 := ExampleInsert(holder, 6.0, 5.0, 5.0, 8.0);
    assert holder.Tables() == ExampleTables(7.0, 5.0, 8.0, 8.0);
    var e3 := ExampleInsert(holder, 7.0, 5.0, 8.0, 8.0);
    assert e1 == e2 == e3 == None;
    assert holder.Tables() == ExampleTables(8.0, 8.0, 8.0, 8.0);
    assert holder.pastWeights["a"] == [8.0, 8.0, 8.0] && holder.weights["a"] == 8.0;
    assert holder.pastWeights["b"] == [5.0, 5.0, 5.0] && holder.weights["b"] == 5.0;
    ExampleLookup(holder);
  }

  /** Looking up a reader the example holder does not know is a lookup error. */
  method ExampleLookup(holder: ReaderWeightHolder<string>)
    requires holder.Tables() == ExampleTables(8.0, 8.0, 8.0, 8.0)
  {
    var r := holder.Get("unknown");
    assert r == Failure(UnknownReader("unknown"));
  }
}
