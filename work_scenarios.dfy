/** Sequences of dispatches on the work reducer, and what a holder of an
    earlier state observes after a later dispatch. */
module WorkScenarios {
  import opened JsValues
  import opened Work

  /** `SAVE_TAGS` with payload `{tags: ['a', 'b']}` on no state sets the tags
      and leaves every other key at its initial value. */
  method SaveTagsFromNothing() returns (next: WorkState)
    ensures next.tags == [Str("a"), Str("b")]
    ensures next.userRole == "" && next.currentProduct == None
    ensures next.repositories.elems == []
    ensures next.allTags == [] && next.allStacks == [] && next.allUsers == []
  {
    var payload := EmptyPatch.(tags := Some([Str("a"), Str("b")]));
    var r, identical, start := WorkReducer(None, SaveTags(payload));
    next := r.value;
  }

  /** `ADD_REPOSITORY` twice from no state. The first result still holds one
      repository after the second dispatch: each dispatch pushes onto a copy. */
  method AddRepositoryTwice() returns (first: seq<Json>, second: seq<Json>, firstAfterSecond: seq<Json>)
    ensures first == [Obj(map["id" := Num(1)])]
    ensures second == [Obj(map["id" := Num(1)]), Obj(map["id" := Num(1)])]
    ensures firstAfterSecond == first
  {
    var repository := Obj(map["id" := Num(1)]);
    var r1, identical1, start1 := WorkReducer(None, AddRepository(repository));
    first := r1.value.repositories.elems;
    var r2, identical2, start2 := WorkReducer(Some(r1.value), AddRepository(repository));
    second := r2.value.repositories.elems;
    firstAfterSecond := r1.value.repositories.elems;
  }

  /** `ADD_CAPABILITY` on a state whose product has a capability set: the
      earlier state sees the pushed capability too, because both states hold
      the same array. The result equals the earlier state as a value, yet it
      is a new object, so a `===` comparison reports a change. */
  method AddCapabilityIsSeenByEarlierState(capability: Json)
    returns (earlier: seq<Json>, next: seq<Json>, shared: bool, equal: bool, identical: bool)
    ensures next == [capability]
    ensures earlier == [capability]
    ensures shared && equal && !identical
  {
    var repositories := new JsArray.Empty();
    var capabilities := new JsArray.Empty();
    var product := Product(Some(capabilities), map["name" := Str("console")]);
    var prior := WorkState([], "", Some(product), repositories, [], [], []);
    var r;
    ghost var start;
    r, identical, start := WorkReducer(Some(prior), AddCapability(capability));
    next := CapabilityArray(r.value).value.elems;
    earlier := CapabilityArray(prior).value.elems;
    shared := CapabilityArray(r.value) == CapabilityArray(prior);
    equal := r.value == prior;
  }

  /** `ADD_CAPABILITY` before any product is set throws; after
      `SET_CAPABILITIES` it succeeds and appends to the array that was set. */
  method AddCapabilityNeedsCapabilitySet(capability: Json)
    returns (before: Result<WorkState, ReduceError>, after: seq<Json>)
    ensures before == Failure(CapabilitySetUndefined)
    ensures after == [capability]
  {
    var identical0;
    ghost var start0;
    before, identical0, start0 := WorkReducer(None, AddCapability(capability));
    var capabilities := new JsArray.Empty();
    var r1, identical1, start1 := WorkReducer(None, SetCapabilities(capabilities));
    var r2, identical2, start2 := WorkReducer(Some(r1.value), AddCapability(capability));
    after := capabilities.elems;
  }

  /** An action of an unrecognised kind hands back the given state object
      itself, so a `===` comparison reports no change. */
  method UnrecognisedKeepsState(prior: WorkState, kind: string) returns (next: WorkState, identical: bool)
    ensures next == prior
    ensures identical
  {
    var r;
    ghost var start;
    r, identical, start := WorkReducer(Some(prior), Unrecognised(kind));
    next := r.value;
  }
}
