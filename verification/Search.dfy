/**
 * The search of checkSingle on values (src/porcupine/checker.go:179-253): its stack of linearized
 * operations, its cache of configurations, its place in the list of entries, and the invariant that
 * makes its verdict exact although the cache cuts branches off.
 *
 * Times are places in the list of entries: every call and every return has a place of its own.
 */
module Search {
  import opened FiniteSets
  import opened KvTypes
  import opened Linearizability

  /** The calls and returns take the places 1 .. 2 * |ops|, each one alone. */
  ghost predicate IsTimeline<I, O>(ops: seq<Operation<I, O>>) {
    && (forall i :: 0 <= i < |ops| ==> 1 <= ops[i].call < ops[i].ret <= 2 * |ops|)
    && (forall i, j :: 0 <= i < |ops| && 0 <= j < |ops| ==> ops[i].call != ops[j].ret)
    && (forall i, j :: 0 <= i < j < |ops| ==> ops[i].call != ops[j].call && ops[i].ret != ops[j].ret)
  }

  /** `calls` and the state: the operations linearized, the model's state before each of them, and now. */
  datatype Stack<S> = Stack(order: seq<nat>, states: seq<S>, state: S)

  /** The configuration at depth d of the stack. */
  ghost function At<S>(z: Stack<S>, d: nat): Config<S>
    requires d <= |z.order| == |z.states|
  {
    Config(Ids(z.order[..d]), if d == |z.order| then z.state else z.states[d])
  }

  ghost function Top<S>(z: Stack<S>): Config<S> {
    Config(Ids(z.order), z.state)
  }

  ghost predicate OnStack<S>(z: Stack<S>, c: Config<S>)
    requires |z.order| == |z.states|
  {
    exists d: nat :: d <= |z.order| && At(z, d) == c
  }

  // ---------- the invariant ----------

  ghost predicate StateOk<S, I, O>(model: Model<S, I, O>, ops: seq<Operation<I, O>>, z: Stack<S>, d: nat)
    requires d <= |z.order| == |z.states| && InRange(z.order, |ops|)
  {
    Exec(model, ops, z.order[..d]) == Some(At(z, d).state)
  }

  ghost predicate StackOk<S, I, O>(model: Model<S, I, O>, ops: seq<Operation<I, O>>, z: Stack<S>) {
    && |z.states| == |z.order| && IsPartial(model, ops, z.order)
    && (forall d: nat :: d <= |z.order| ==> StateOk(model, ops, z, d))
  }

  /** The successors of c through operations called before `place` are cached. */
  ghost predicate TriedBefore<S, I, O>(model: Model<S, I, O>, ops: seq<Operation<I, O>>, cache: set<Config<S>>, c: Config<S>, place: int) {
    forall id: nat :: Next(model, ops, c, id).Some? && ops[id].call < place ==> Next(model, ops, c, id).value in cache
  }

  ghost predicate Closed<S, I, O>(model: Model<S, I, O>, ops: seq<Operation<I, O>>, cache: set<Config<S>>, c: Config<S>) {
    forall id: nat :: Next(model, ops, c, id).Some? ==> Next(model, ops, c, id).value in cache
  }

  /** The stack is cached but for the root, and at each depth what was called up to the choice made there was tried. */
  ghost predicate StackCached<S, I, O>(model: Model<S, I, O>, ops: seq<Operation<I, O>>, z: Stack<S>, cache: set<Config<S>>)
    requires |z.order| == |z.states| && InRange(z.order, |ops|)
  {
    && (forall d: nat :: 0 < d <= |z.order| ==> At(z, d) in cache)
    && (forall d: nat :: d < |z.order| ==> TriedBefore(model, ops, cache, At(z, d), ops[z.order[d]].call + 1))
  }

  /** Whatever is cached and not on the stack is done with: all its successors are cached. */
  ghost predicate RestClosed<S, I, O>(model: Model<S, I, O>, ops: seq<Operation<I, O>>, z: Stack<S>, cache: set<Config<S>>)
    requires |z.order| == |z.states|
  {
    forall c :: c in cache && !OnStack(z, c) ==> Closed(model, ops, cache, c)
  }

  /** The cache holds configurations of the search, and a full one only if the search is there. */
  ghost predicate CacheFits<S, I, O>(model: Model<S, I, O>, ops: seq<Operation<I, O>>, z: Stack<S>, cache: set<Config<S>>) {
    && cache <= Universe(model, ops, |ops|)
    && (forall c :: c in cache ==> c.done != {} && (|c.done| == |ops| ==> |z.order| == |ops|))
  }

  /** No return of an operation left out lies before the place looked at. */
  ghost predicate PlaceOk<I, O>(ops: seq<Operation<I, O>>, done: set<nat>, pos: int) {
    && 1 <= pos <= 2 * |ops| + 1
    && forall j: nat :: j < |ops| && j !in done ==> pos <= ops[j].ret
  }

  ghost predicate Inv<S, I, O>(model: Model<S, I, O>, ops: seq<Operation<I, O>>, z: Stack<S>, cache: set<Config<S>>, pos: int) {
    && StackOk(model, ops, z) && StackCached(model, ops, z, cache) && RestClosed(model, ops, z, cache)
    && CacheFits(model, ops, z, cache) && PlaceOk(ops, Ids(z.order), pos)
    && TriedBefore(model, ops, cache, Top(z), pos)
  }

  /** `longest` holds partial linearizations, for each operation the longest of the configurations done with. */
  ghost predicate LongestOk<S, I, O>(model: Model<S, I, O>, ops: seq<Operation<I, O>>, z: Stack<S>, cache: set<Config<S>>,
                                     longest: seq<Option<seq<nat>>>)
    requires |z.order| == |z.states|
  {
    && |longest| == |ops|
    && (forall i: nat :: i < |ops| && longest[i].Some? ==>
          IsPartial(model, ops, longest[i].value) && i in longest[i].value)
    && (forall c, i: nat :: c in cache && !OnStack(z, c) && i in c.done && i < |ops| ==>
          longest[i].Some? && |longest[i].value| >= |c.done|)
  }

  // ---------- the moves ----------

  /** Only entries of operations done lie between two places. */
  ghost predicate OnlyDoneBetween<I, O>(ops: seq<Operation<I, O>>, done: set<nat>, from: int, to: int) {
    forall i: nat :: i < |ops| && (from < ops[i].call < to || from < ops[i].ret < to) ==> i in done
  }

  lemma TopIsAt<S>(z: Stack<S>)
    requires |z.order| == |z.states|
    ensures At(z, |z.order|) == Top(z)
  {
    assert z.order[..|z.order|] == z.order;
  }

  lemma StartInv<S, I, O>(model: Model<S, I, O>, ops: seq<Operation<I, O>>)
    requires IsTimeline(ops)
    ensures Inv(model, ops, Stack([], [], model.init), {}, 1)
    ensures LongestOk(model, ops, Stack([], [], model.init), {}, seq(|ops|, _ => None))
  {
    StartStack(model, ops);
    NothingBefore(model, ops, {}, Top(Stack([], [], model.init)));
    hide StackOk, Next, Universe, TriedBefore;
  }

  lemma StartStack<S, I, O>(model: Model<S, I, O>, ops: seq<Operation<I, O>>)
    ensures StackOk(model, ops, Stack([], [], model.init))
  {
    var z := Stack([], [], model.init);
    assert z.order[..0] == [];
    assert StateOk(model, ops, z, 0);
  }

  lemma TriedFurther<S, I, O>(model: Model<S, I, O>, ops: seq<Operation<I, O>>, cache: set<Config<S>>, c: Config<S>, from: int, to: int)
    requires TriedBefore(model, ops, cache, c, from + 1) && OnlyDoneBetween(ops, c.done, from, to)
    ensures TriedBefore(model, ops, cache, c, to)
  {
  }

  lemma PlaceFurther<I, O>(ops: seq<Operation<I, O>>, done: set<nat>, from: int, to: int)
    requires forall j: nat :: j < |ops| && j !in done ==> from < ops[j].ret
    requires OnlyDoneBetween(ops, done, from, to) && 1 <= to <= 2 * |ops| + 1
    ensures PlaceOk(ops, done, to)
  {
  }

  /** An unsuccessful or already cached call is passed over. */
  lemma SkipInv<S, I, O>(model: Model<S, I, O>, ops: seq<Operation<I, O>>, z: Stack<S>, cache: set<Config<S>>, pos: int, id: nat, pos': int)
    requires IsTimeline(ops) && Inv(model, ops, z, cache, pos) && id < |ops| && ops[id].call == pos
    requires Next(model, ops, Top(z), id).Some? ==> Next(model, ops, Top(z), id).value in cache
    requires pos < pos' <= 2 * |ops| + 1 && OnlyDoneBetween(ops, Ids(z.order), pos, pos')
    ensures Inv(model, ops, z, cache, pos')
  {
    hide StackOk, StackCached, RestClosed, CacheFits;
    assert TriedBefore(model, ops, cache, Top(z), pos + 1);
    TriedFurther(model, ops, cache, Top(z), pos, pos');
    PlaceFurther(ops, Ids(z.order), pos, pos');
  }

  /** A call that is still in the list, with no return before it, may be linearized next. */
  lemma CallIsEnabled<I, O>(ops: seq<Operation<I, O>>, done: set<nat>, pos: int, id: nat)
    requires PlaceOk(ops, done, pos) && id < |ops| && id !in done && ops[id].call == pos
    ensures Enabled(ops, done, id)
  {
  }

  /** At a return that is still in the list, everything that may be linearized next was called before. */
  lemma ReturnMeansTried<S, I, O>(model: Model<S, I, O>, ops: seq<Operation<I, O>>, cache: set<Config<S>>, c: Config<S>, pos: int, id: nat)
    requires IsTimeline(ops) && TriedBefore(model, ops, cache, c, pos)
    requires id < |ops| && id !in c.done && ops[id].ret == pos
    ensures Closed(model, ops, cache, c)
  {
  }

  // -- linearizing one more --

  function Push<S>(z: Stack<S>, id: nat, state: S): Stack<S> {
    Stack(z.order + [id], z.states + [z.state], state)
  }

  lemma PushAt<S>(z: Stack<S>, id: nat, state: S, d: nat)
    requires |z.order| == |z.states| && d <= |z.order|
    ensures At(Push(z, id, state), d) == At(z, d)
    ensures Top(Push(z, id, state)) == Config(Top(z).done + {id}, state)
  {
    var z' := Push(z, id, state);
    assert z'.order[..d] == z.order[..d];
    assert Ids(z'.order) == Ids(z.order) + {id};
  }

  lemma PushOnStack<S>(z: Stack<S>, id: nat, state: S, c: Config<S>)
    requires |z.order| == |z.states|
    ensures OnStack(Push(z, id, state), c) <==> OnStack(z, c) || c == Top(Push(z, id, state))
  {
    var z' := Push(z, id, state);
    TopIsAt(z');
    forall d: nat | d <= |z.order| ensures At(z', d) == At(z, d) {
      PushAt(z, id, state, d);
    }
    if OnStack(z, c) {
      var d: nat :| d <= |z.order| && At(z, d) == c;
      assert At(z', d) == c;
    }
  }

  lemma StackReached<S, I, O>(model: Model<S, I, O>, ops: seq<Operation<I, O>>, z: Stack<S>)
    requires StackOk(model, ops, z)
    ensures Reached(model, ops, z.order) == Top(z)
  {
    assert StateOk(model, ops, z, |z.order|);
    assert z.order[..|z.order|] == z.order;
  }

  lemma PushStackOk<S, I, O>(model: Model<S, I, O>, ops: seq<Operation<I, O>>, z: Stack<S>, id: nat, state: S)
    requires StackOk(model, ops, z) && Next(model, ops, Top(z), id) == Some(Config(Top(z).done + {id}, state))
    ensures StackOk(model, ops, Push(z, id, state))
  {
    var z' := Push(z, id, state);
    StackReached(model, ops, z);
    PartialExtend(model, ops, z.order, id);
    hide Exec, Enabled, Next;
    assert Exec(model, ops, z'.order) == Some(state);
    forall d: nat | d <= |z'.order| ensures StateOk(model, ops, z', d) {
      if d <= |z.order| {
        assert StateOk(model, ops, z, d);
        PushStateOk(model, ops, z, id, state, d);
      } else {
        assert z'.order[..d] == z'.order;
      }
    }
  }

  lemma PushStateOk<S, I, O>(model: Model<S, I, O>, ops: seq<Operation<I, O>>, z: Stack<S>, id: nat, state: S, d: nat)
    requires d <= |z.order| == |z.states| && InRange(z.order, |ops|) && InRange(z.order + [id], |ops|) && StateOk(model, ops, z, d)
    ensures StateOk(model, ops, Push(z, id, state), d)
  {
    hide Exec;
    PushAt(z, id, state, d);
    assert Push(z, id, state).order[..d] == z.order[..d];
  }

  lemma PushStackCached<S, I, O>(model: Model<S, I, O>, ops: seq<Operation<I, O>>, z: Stack<S>, cache: set<Config<S>>, id: nat, state: S)
    requires |z.order| == |z.states| && InRange(z.order, |ops|) && id < |ops| && StackCached(model, ops, z, cache)
    requires TriedBefore(model, ops, cache, Top(z), ops[id].call)
    requires forall i: nat :: i < |ops| && i != id ==> ops[i].call != ops[id].call
    requires Next(model, ops, Top(z), id) == Some(Config(Top(z).done + {id}, state))
    ensures StackCached(model, ops, Push(z, id, state), cache + {Top(Push(z, id, state))})
  {
    var z', cache' := Push(z, id, state), cache + {Top(Push(z, id, state))};
    TopIsAt(z);
    TopIsAt(z');
    PushAt(z, id, state, 0);
    forall d: nat | d < |z'.order|
      ensures TriedBefore(model, ops, cache', At(z', d), ops[z'.order[d]].call + 1) && (d > 0 ==> At(z', d) in cache')
    {
      PushAt(z, id, state, d);
      if d < |z.order| {
        assert TriedBefore(model, ops, cache, At(z, d), ops[z.order[d]].call + 1);
        hide Next, At, Top;
      } else {
        hide At;
      }
    }
  }

  lemma PushClosed<S, I, O>(model: Model<S, I, O>, ops: seq<Operation<I, O>>, z: Stack<S>, cache: set<Config<S>>, id: nat, state: S)
    requires |z.order| == |z.states| && RestClosed(model, ops, z, cache)
    ensures RestClosed(model, ops, Push(z, id, state), cache + {Top(Push(z, id, state))})
  {
    var z' := Push(z, id, state);
    var cache' := cache + {Top(z')};
    forall c | c in cache' && !OnStack(z', c) ensures Closed(model, ops, cache', c) {
      PushOnStack(z, id, state, c);
      assert Closed(model, ops, cache, c);
    }
  }

  lemma DoneSize<S, I, O>(model: Model<S, I, O>, ops: seq<Operation<I, O>>, z: Stack<S>)
    requires StackOk(model, ops, z)
    ensures |Top(z).done| == |z.order| <= |ops|
    ensures |z.order| == |ops| ==> Top(z).done == Upto(|ops|)
  {
    PartialIsDistinct(model, ops, z.order);
    IdsSize(z.order);
    OrderFits(z.order, |ops|);
  }

  /** A new configuration is pushed; the search starts over at the head of the list. */
  lemma PushInv<S, I, O>(model: Model<S, I, O>, ops: seq<Operation<I, O>>, z: Stack<S>, cache: set<Config<S>>, pos: int,
                         id: nat, state: S, pos': int)
    requires IsTimeline(ops) && Inv(model, ops, z, cache, pos) && id < |ops| && ops[id].call == pos && id !in Ids(z.order)
    requires Next(model, ops, Top(z), id) == Some(Config(Top(z).done + {id}, state))
    requires Config(Top(z).done + {id}, state) !in cache && |z.order| < |ops|
    requires 1 <= pos' <= 2 * |ops| + 1 && OnlyDoneBetween(ops, Ids(z.order) + {id}, 0, pos')
    ensures Inv(model, ops, Push(z, id, state), cache + {Config(Top(z).done + {id}, state)}, pos')
    ensures Config(Top(z).done + {id}, state) in Universe(model, ops, |ops|)
  {
    var z' := Push(z, id, state);
    hide OnlyDoneBetween, StackOk, StackCached, RestClosed, TriedBefore, CacheFits, Next, Universe, PlaceOk;
    SizesMatch(model, ops, z);
    PushAt(z, id, state, 0);
    PushStackOk(model, ops, z, id, state);
    SizesMatch(model, ops, z');
    CallsApart(ops, id);
    PushStackCached(model, ops, z, cache, id, state);
    PushClosed(model, ops, z, cache, id, state);
    PushFits(model, ops, z, cache, id, state);
    AllReturnLater(ops, Ids(z'.order));
    PlaceFurther(ops, Ids(z'.order), 0, pos');
    NothingBefore(model, ops, cache + {Top(z')}, Top(z'));
    TriedFurther(model, ops, cache + {Top(z')}, Top(z'), 0, pos');
  }

  lemma SizesMatch<S, I, O>(model: Model<S, I, O>, ops: seq<Operation<I, O>>, z: Stack<S>)
    requires StackOk(model, ops, z)
    ensures |z.order| == |z.states| && InRange(z.order, |ops|)
  {
  }

  lemma CallsApart<I, O>(ops: seq<Operation<I, O>>, id: nat)
    requires IsTimeline(ops) && id < |ops|
    ensures forall i: nat :: i < |ops| && i != id ==> ops[i].call != ops[id].call
  {
  }

  lemma AllReturnLater<I, O>(ops: seq<Operation<I, O>>, done: set<nat>)
    requires IsTimeline(ops)
    ensures forall j: nat :: j < |ops| && j !in done ==> 0 < ops[j].ret
  {
  }

  lemma PushFits<S, I, O>(model: Model<S, I, O>, ops: seq<Operation<I, O>>, z: Stack<S>, cache: set<Config<S>>, id: nat, state: S)
    requires CacheFits(model, ops, z, cache) && StackOk(model, ops, Push(z, id, state)) && |z.order| < |ops|
    ensures CacheFits(model, ops, Push(z, id, state), cache + {Top(Push(z, id, state))})
    ensures Top(Push(z, id, state)) in Universe(model, ops, |ops|)
  {
    hide Universe, IsPartial, StateOk;
    var z' := Push(z, id, state);
    StackReached(model, ops, z');
    ReachedInUniverse(model, ops, z'.order);
    DoneSize(model, ops, z');
    hide StackOk, Reached;
    assert z'.order[|z.order|] == id;
    assert id in Ids(z'.order);
  }

  lemma NothingBefore<S, I, O>(model: Model<S, I, O>, ops: seq<Operation<I, O>>, cache: set<Config<S>>, c: Config<S>)
    requires IsTimeline(ops)
    ensures TriedBefore(model, ops, cache, c, 1)
  {
  }

  lemma PushLongest<S, I, O>(model: Model<S, I, O>, ops: seq<Operation<I, O>>, z: Stack<S>, cache: set<Config<S>>, id: nat, state: S,
                             longest: seq<Option<seq<nat>>>)
    requires |z.order| == |z.states| && LongestOk(model, ops, z, cache, longest)
    ensures LongestOk(model, ops, Push(z, id, state), cache + {Top(Push(z, id, state))}, longest)
  {
    forall c ensures OnStack(Push(z, id, state), c) <==> OnStack(z, c) || c == Top(Push(z, id, state)) {
      PushOnStack(z, id, state, c);
    }
    hide OnStack;
  }

  // -- backing up --

  function Pop<S>(z: Stack<S>): Stack<S>
    requires |z.order| == |z.states| > 0
  {
    var last := |z.order| - 1;
    Stack(z.order[..last], z.states[..last], z.states[last])
  }

  lemma PopPush<S>(z: Stack<S>)
    requires |z.order| == |z.states| > 0
    ensures Push(Pop(z), z.order[|z.order| - 1], z.state) == z
  {
  }

  lemma PopStackOk<S, I, O>(model: Model<S, I, O>, ops: seq<Operation<I, O>>, z: Stack<S>)
    requires StackOk(model, ops, z) && z.order != []
    ensures StackOk(model, ops, Pop(z))
    ensures var id := z.order[|z.order| - 1];
            && Enabled(ops, Ids(Pop(z).order), id) && id !in Ids(Pop(z).order)
            && Ids(z.order) == Ids(Pop(z).order) + {id}
  {
    PartialPrefix(model, ops, z.order);
    hide Exec, IsPartial, StateOk;
    forall d: nat | d <= |Pop(z).order| ensures StateOk(model, ops, Pop(z), d) {
      assert StateOk(model, ops, z, d);
      PopStateOk(model, ops, z, d);
    }
  }

  lemma PopStateOk<S, I, O>(model: Model<S, I, O>, ops: seq<Operation<I, O>>, z: Stack<S>, d: nat)
    requires |z.order| == |z.states| > d && InRange(z.order, |ops|) && InRange(Pop(z).order, |ops|) && StateOk(model, ops, z, d)
    ensures StateOk(model, ops, Pop(z), d)
  {
    PopPush(z);
    PushAt(Pop(z), z.order[|z.order| - 1], z.state, d);
    assert Pop(z).order[..d] == z.order[..d];
  }

  lemma PopCached<S, I, O>(model: Model<S, I, O>, ops: seq<Operation<I, O>>, z: Stack<S>, cache: set<Config<S>>)
    requires |z.order| == |z.states| > 0 && InRange(z.order, |ops|)
    requires StackCached(model, ops, z, cache) && RestClosed(model, ops, z, cache) && Closed(model, ops, cache, Top(z))
    ensures StackCached(model, ops, Pop(z), cache) && RestClosed(model, ops, Pop(z), cache)
    ensures TriedBefore(model, ops, cache, Top(Pop(z)), ops[z.order[|z.order| - 1]].call + 1)
  {
    var z', id := Pop(z), z.order[|z.order| - 1];
    PopPush(z);
    TopIsAt(z');
    forall d: nat | d <= |z'.order| ensures At(z', d) == At(z, d) {
      PushAt(z', id, z.state, d);
    }
    forall c ensures OnStack(z, c) <==> OnStack(z', c) || c == Top(z) {
      PushOnStack(z', id, z.state, c);
    }
    hide OnStack, At, Closed, TriedBefore;
  }

  /** A configuration all of whose successors are cached is left for the one below it. */
  lemma PopInv<S, I, O>(model: Model<S, I, O>, ops: seq<Operation<I, O>>, z: Stack<S>, cache: set<Config<S>>, pos: int, pos': int)
    requires IsTimeline(ops) && Inv(model, ops, z, cache, pos) && z.order != [] && |z.order| < |ops|
    requires Closed(model, ops, cache, Top(z))
    requires var id := z.order[|z.order| - 1];
             id < |ops| && ops[id].call < pos' <= 2 * |ops| + 1 && OnlyDoneBetween(ops, Ids(Pop(z).order), ops[id].call, pos')
    ensures Inv(model, ops, Pop(z), cache, pos')
  {
    var z', id := Pop(z), z.order[|z.order| - 1];
    hide OnlyDoneBetween, TriedBefore, Closed, StackCached, RestClosed;
    PopStackOk(model, ops, z);
    PopCached(model, ops, z, cache);
    TriedFurther(model, ops, cache, Top(z'), ops[id].call, pos');
    PlaceFurther(ops, Ids(z'.order), ops[id].call, pos');
  }

  /** What the loop over `calls` makes of `longest` at a dead end. */
  function Lengthen(longest: seq<Option<seq<nat>>>, order: seq<nat>): seq<Option<seq<nat>>> {
    seq(|longest|, i requires 0 <= i < |longest| =>
      if i in order && (longest[i].None? || |order| > |longest[i].value|) then Some(order) else longest[i])
  }

  lemma PopLongest<S, I, O>(model: Model<S, I, O>, ops: seq<Operation<I, O>>, z: Stack<S>, cache: set<Config<S>>, longest: seq<Option<seq<nat>>>)
    requires StackOk(model, ops, z) && z.order != [] && LongestOk(model, ops, z, cache, longest)
    ensures LongestOk(model, ops, Pop(z), cache, Lengthen(longest, z.order))
  {
    PopPush(z);
    DoneSize(model, ops, z);
    forall c ensures OnStack(z, c) <==> OnStack(Pop(z), c) || c == Top(z) {
      PushOnStack(Pop(z), z.order[|z.order| - 1], z.state, c);
    }
    hide OnStack, IsPartial, At;
  }

  // ---------- the verdict ----------

  /** When the root is done with, every partial linearization there is leads to a cached configuration. */
  lemma Exhausted<S, I, O>(model: Model<S, I, O>, ops: seq<Operation<I, O>>, z: Stack<S>, cache: set<Config<S>>, pos: int, order: seq<nat>)
    requires Inv(model, ops, z, cache, pos) && z.order == [] && Closed(model, ops, cache, Top(z))
    requires IsPartial(model, ops, order)
    ensures order == [] || Reached(model, ops, order) in cache
  {
    var configs := cache + {Top(z)};
    SizesMatch(model, ops, z);
    TopIsAt(z);
    assert Top(z) == Root(model) by {
      assert StateOk(model, ops, z, 0);
    }
    assert forall c :: OnStack(z, c) ==> c == Top(z);
    assert forall c :: c in configs ==> Closed(model, ops, cache, c);
    hide StackOk, StackCached, RestClosed, CacheFits, TriedBefore, OnStack;
    ClosedHoldsAll(model, ops, configs, order);
    if order != [] {
      assert order[0] in Ids(order);
    }
  }

  /** Completeness: a search that has come to its end has missed no linearization. */
  lemma ExhaustedMeansNone<S, I, O>(model: Model<S, I, O>, ops: seq<Operation<I, O>>, z: Stack<S>, cache: set<Config<S>>, pos: int)
    requires Inv(model, ops, z, cache, pos) && z.order == [] && Closed(model, ops, cache, Top(z)) && |ops| > 0
    ensures !Linearizable(model, ops)
  {
    if Linearizable(model, ops) {
      var order :| IsLinearization(model, ops, order);
      FullPartial(model, ops, order);
      Exhausted(model, ops, z, cache, pos, order);
      PartialIsDistinct(model, ops, order);
      IdsSize(order);
      assert false;
    }
  }

  /** Nor has it missed a longer partial linearization with any operation. */
  lemma ExhaustedLongest<S, I, O>(model: Model<S, I, O>, ops: seq<Operation<I, O>>, z: Stack<S>, cache: set<Config<S>>, pos: int,
                                  longest: seq<Option<seq<nat>>>, order: seq<nat>, i: nat)
    requires Inv(model, ops, z, cache, pos) && z.order == [] && Closed(model, ops, cache, Top(z))
    requires LongestOk(model, ops, z, cache, longest) && IsPartial(model, ops, order) && i in order
    ensures i < |longest| && longest[i].Some? && |longest[i].value| >= |order|
  {
    Exhausted(model, ops, z, cache, pos, order);
    PartialIsDistinct(model, ops, order);
    IdsSize(order);
    var c := Reached(model, ops, order);
    assert i in c.done;
    assert !OnStack(z, c) by {
      assert forall d: nat :: d <= |z.order| ==> At(z, d).done == {};
    }
  }

  /** Soundness: a full stack is a linearization. */
  lemma FullStack<S, I, O>(model: Model<S, I, O>, ops: seq<Operation<I, O>>, z: Stack<S>)
    requires StackOk(model, ops, z) && |z.order| == |ops|
    ensures IsLinearization(model, ops, z.order)
  {
    FullPartial(model, ops, z.order);
  }
}
