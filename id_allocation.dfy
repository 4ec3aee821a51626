/**
 * The identity allocator and registry of ObjectLogic.cs as values: what one
 * run of the Entity constructor does to the static counter `currentMaxID`
 * and to the key set of `EntityContainer.Container`, and what a sequence of
 * constructions does. The class model in entities.dfy is proved to follow
 * `Construct`.
 */
module IdAllocation {
  import opened Wrappers
  import opened EntityKinds

  /** Requested IDs in 1..RESERVED_MAX are honoured (the bound of ObjectLogic.cs:33). */
  const RESERVED_MAX: int := 1000000
  /** The initial value of `currentMaxID` (ObjectLogic.cs:11). */
  const INITIAL_MAX_ID: int := 1000000
  /** The default of the constructor's optional `id` parameter. */
  const DEFAULT_ID: int := -1

  predicate IsPregeneratedID(id: int) {
    0 < id <= RESERVED_MAX
  }

  /** The counter and, for every key of the container, the type of the entity stored there. */
  datatype RegistryState = RegistryState(currentMaxID: int, entries: map<int, EntityType>)

  /** One constructor call: the requested ID and the entity type. */
  datatype Request = Request(kind: EntityType, id: int)

  function Initial(): RegistryState {
    RegistryState(INITIAL_MAX_ID, map[])
  }

  /** `idToAdd`: the requested ID if it is in range, otherwise the current counter (not yet consumed). */
  function CandidateID(requested: int, currentMaxID: int): (c: int)
    ensures IsPregeneratedID(requested) ==> c == requested
    ensures !IsPregeneratedID(requested) ==> c == currentMaxID
  {
    if requested <= 0 || requested > RESERVED_MAX then currentMaxID else requested
  }

  /**
   * The key the constructor inserts. The duplicate test reads the field
   * `thisID`, which at that point still holds C#'s default 0, and not the
   * candidate: the "duplicate" branch is taken only if key 0 is present.
   */
  function FinalID(r: RegistryState, requested: int): (id: int)
    ensures !IsPregeneratedID(requested) ==> id == r.currentMaxID
    ensures IsPregeneratedID(requested) && 0 !in r.entries ==> id == requested
  {
    var idToAdd := CandidateID(requested, r.currentMaxID);
    var thisID := 0;
    if thisID !in r.entries then idToAdd else r.currentMaxID
  }

  /** `Dictionary.Add` throws on a key already present: the construction goes through only otherwise. */
  predicate CanConstruct(r: RegistryState, requested: int) {
    FinalID(r, requested) !in r.entries
  }

  /** The state after one constructor call: one new key, every old entry kept, the counter one higher. */
  function Construct(r: RegistryState, kind: EntityType, requested: int): (r': RegistryState)
    requires CanConstruct(r, requested)
    ensures r'.currentMaxID == r.currentMaxID + 1
    ensures r'.entries.Keys == r.entries.Keys + {FinalID(r, requested)}
    ensures FinalID(r, requested) !in r.entries && r'.entries[FinalID(r, requested)] == kind
    ensures forall k :: k in r.entries ==> k in r'.entries && r'.entries[k] == r.entries[k]
  {
    RegistryState(r.currentMaxID + 1, r.entries[FinalID(r, requested) := kind])
  }

  /**
   * What every reachable state satisfies: the counter never went below its
   * start, every key is at least 1 (so key 0 is absent), and every key is a
   * pregenerated ID or a counter value already consumed.
   */
  predicate Inv(r: RegistryState) {
    && r.currentMaxID >= INITIAL_MAX_ID
    && forall k :: k in r.entries ==> 1 <= k && (k <= RESERVED_MAX || k < r.currentMaxID)
  }

  lemma InitialInv()
    ensures Inv(Initial())
  {
  }

  lemma ConstructPreservesInv(r: RegistryState, kind: EntityType, requested: int)
    requires Inv(r) && CanConstruct(r, requested)
    ensures Inv(Construct(r, kind, requested))
  {
  }

  /** Under the invariant the "duplicate" branch is dead: the candidate is always what is inserted. */
  lemma DuplicateBranchUnreachable(r: RegistryState, requested: int)
    requires Inv(r)
    ensures 0 !in r.entries
    ensures FinalID(r, requested) == CandidateID(requested, r.currentMaxID)
  {
  }

  /** A requested ID already present is not resolved to a fresh one: `Add` would throw. */
  lemma DuplicateRequestThrows(r: RegistryState, requested: int)
    requires Inv(r) && IsPregeneratedID(requested) && requested in r.entries
    ensures !CanConstruct(r, requested)
  {
  }

  /** The result of a sequence of constructions: the final state and the ID each one received. */
  datatype RunOutcome = RunOutcome(final: RegistryState, ids: seq<int>)

  /** Runs the constructor once per request; `None` when some `Add` would throw. */
  function Run(r: RegistryState, reqs: seq<Request>): Option<RunOutcome>
    decreases |reqs|
  {
    if reqs == [] then Some(RunOutcome(r, []))
    else if !CanConstruct(r, reqs[0].id) then None
    else
      match Run(Construct(r, reqs[0].kind, reqs[0].id), reqs[1..])
      case None => None
      case Some(o) => Some(RunOutcome(o.final, [FinalID(r, reqs[0].id)] + o.ids))
  }

  /**
   * Every construction advances the counter by exactly one, whichever branch
   * runs, and the i-th one receives the candidate for its request against
   * the counter value `r.currentMaxID + i`.
   */
  lemma {:induction false} RunAssignsIDs(r: RegistryState, reqs: seq<Request>)
    requires Inv(r) && Run(r, reqs).Some?
    decreases |reqs|
    ensures Inv(Run(r, reqs).value.final)
    ensures Run(r, reqs).value.final.currentMaxID == r.currentMaxID + |reqs|
    ensures |Run(r, reqs).value.ids| == |reqs|
    ensures forall i :: 0 <= i < |reqs| ==>
              Run(r, reqs).value.ids[i] == CandidateID(reqs[i].id, r.currentMaxID + i)
  {
    if reqs != [] {
      var r1 := Construct(r, reqs[0].kind, reqs[0].id);
      ConstructPreservesInv(r, reqs[0].kind, reqs[0].id);
      DuplicateBranchUnreachable(r, reqs[0].id);
      RunAssignsIDs(r1, reqs[1..]);
      var o := Run(r, reqs).value;
      var o1 := Run(r1, reqs[1..]).value;
      assert o.ids == [FinalID(r, reqs[0].id)] + o1.ids;
      forall i | 0 < i < |reqs|
        ensures o.ids[i] == CandidateID(reqs[i].id, r.currentMaxID + i)
      {
        assert o.ids[i] == o1.ids[i - 1];
        assert reqs[1..][i - 1] == reqs[i];
      }
    }
  }

  /**
   * Runtime-assigned IDs (requests outside 1..RESERVED_MAX, the default -1
   * among them) are at least INITIAL_MAX_ID and strictly increasing.
   */
  lemma RuntimeIDsIncrease(r: RegistryState, reqs: seq<Request>, i: int, j: int)
    requires Inv(r) && Run(r, reqs).Some?
    requires 0 <= i < j < |reqs|
    requires !IsPregeneratedID(reqs[i].id) && !IsPregeneratedID(reqs[j].id)
    ensures |Run(r, reqs).value.ids| == |reqs|
    ensures INITIAL_MAX_ID <= Run(r, reqs).value.ids[i] < Run(r, reqs).value.ids[j]
  {
    RunAssignsIDs(r, reqs);
  }

  /**
   * A run never overwrites an entry: the IDs it hands out are pairwise
   * distinct and new, the final keys are the old keys plus exactly those
   * IDs, each new key holds its request's type and the old entries are kept.
   */
  lemma {:induction false} RunExtendsRegistry(r: RegistryState, reqs: seq<Request>)
    requires Run(r, reqs).Some?
    decreases |reqs|
    ensures var o := Run(r, reqs).value;
      && |o.ids| == |reqs|
      && (forall i :: 0 <= i < |o.ids| ==> o.ids[i] !in r.entries)
      && (forall i, j :: 0 <= i < j < |o.ids| ==> o.ids[i] != o.ids[j])
      && (forall k :: k in o.final.entries <==> k in r.entries || k in o.ids)
      && (forall i :: 0 <= i < |o.ids| ==> o.final.entries[o.ids[i]] == reqs[i].kind)
      && (forall k :: k in r.entries ==> o.final.entries[k] == r.entries[k])
  {
    if reqs != [] {
      var id0 := FinalID(r, reqs[0].id);
      var r1 := Construct(r, reqs[0].kind, reqs[0].id);
      RunExtendsRegistry(r1, reqs[1..]);
      var o := Run(r, reqs).value;
      var o1 := Run(r1, reqs[1..]).value;
      assert o.ids == [id0] + o1.ids;
      assert o.final == o1.final;
      forall i | 0 < i < |o.ids|
        ensures o.ids[i] == o1.ids[i - 1] && reqs[i] == reqs[1..][i - 1]
      {
      }
    }
  }

  /** The default request from the initial state gets the first runtime ID, 1000000, itself a legal pregenerated ID. */
  lemma FirstRuntimeIDIsPregenerated(kind: EntityType)
    ensures Run(Initial(), [Request(kind, DEFAULT_ID)]).Some?
    ensures Run(Initial(), [Request(kind, DEFAULT_ID)]).value.ids == [INITIAL_MAX_ID]
    ensures IsPregeneratedID(INITIAL_MAX_ID)
  {
  }

  /**
   * So a default request made first takes 1000000, and a later request for
   * the pregenerated ID 1000000 makes its `Add` throw.
   */
  lemma FirstRuntimeIDCollidesWithPregenerated(kind: EntityType, kind': EntityType)
    ensures Run(Initial(), [Request(kind', RESERVED_MAX)]).Some?
    ensures Run(Initial(), [Request(kind, DEFAULT_ID), Request(kind', RESERVED_MAX)]).None?
  {
    var r1 := Construct(Initial(), kind, DEFAULT_ID);
    assert FinalID(r1, RESERVED_MAX) == RESERVED_MAX;
  }

  /** Two requests for the same pregenerated ID 5: the second `Add` throws, no fresh ID is handed out. */
  lemma SameRequestedIDTwiceThrows(kind: EntityType, kind': EntityType)
    ensures Run(Initial(), [Request(kind, 5)]).Some?
    ensures Run(Initial(), [Request(kind, 5), Request(kind', 5)]).None?
  {
    var r1 := Construct(Initial(), kind, 5);
    assert FinalID(r1, 5) == 5;
  }
}
