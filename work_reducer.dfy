/** The Redux work reducer: the store state that the console pages share
    (tags, user role, current product, repositories and the lists of all
    tags, stacks and users) and the transition from one state to the next
    for each kind of action. */
module Work {
  import opened JsValues

  /** The own fields of a product other than `capabilitySet`. */
  type OtherFields = m: map<string, Json> | "capabilitySet" !in m witness map[]

  /** The object held in `currentProduct`: its `capabilitySet` array (None
      when the object has no such field) and every other own field. */
  datatype Product = Product(capabilitySet: Option<JsArray>, otherFields: OtherFields)

  /** The product `{}` that `Object.assign({}, null)` yields. */
  const NoFields := Product(None, map[])

  /** The store state. `currentProduct == None` is `null`. `repositories` is a
      reference to an array object, so two states can share it. */
  datatype WorkState = WorkState(
    tags: seq<Json>,
    userRole: string,
    currentProduct: Option<Product>,
    repositories: JsArray,
    allTags: seq<Json>,
    allStacks: seq<Json>,
    allUsers: seq<Json>)

  /** The keys of the state object. */
  datatype Key = Tags | UserRole | CurrentProduct | Repositories | AllTags | AllStacks | AllUsers

  const AllKeys: set<Key> := {Tags, UserRole, CurrentProduct, Repositories, AllTags, AllStacks, AllUsers}

  /** What a key of the state can hold. */
  datatype Value =
    | Items(items: seq<Json>)
    | Text(text: string)
    | ProductRef(product: Option<Product>)
    | ArrayRef(array: JsArray)

  /** `state[k]`. */
  function Get(s: WorkState, k: Key): Value
  {
    match k
    case Tags => Items(s.tags)
    case UserRole => Text(s.userRole)
    case CurrentProduct => ProductRef(s.currentProduct)
    case Repositories => ArrayRef(s.repositories)
    case AllTags => Items(s.allTags)
    case AllStacks => Items(s.allStacks)
    case AllUsers => Items(s.allUsers)
  }

  /** The state seen as a JavaScript object: a map from its keys to their values. */
  function Fields(s: WorkState): map<Key, Value>
  {
    map k | k in AllKeys :: Get(s, k)
  }

  /** The payload of a merge action: the keys it carries, each with its value. */
  datatype Patch = Patch(
    tags: Option<seq<Json>>,
    userRole: Option<string>,
    currentProduct: Option<Option<Product>>,
    repositories: Option<JsArray>,
    allTags: Option<seq<Json>>,
    allStacks: Option<seq<Json>>,
    allUsers: Option<seq<Json>>)

  /** The payload `{}`. */
  const EmptyPatch := Patch(None, None, None, None, None, None, None)

  /** `payload[k]` when the payload carries `k`. */
  function Provided(p: Patch, k: Key): Option<Value>
  {
    match k
    case Tags => if p.tags.Some? then Some(Items(p.tags.value)) else None
    case UserRole => if p.userRole.Some? then Some(Text(p.userRole.value)) else None
    case CurrentProduct => if p.currentProduct.Some? then Some(ProductRef(p.currentProduct.value)) else None
    case Repositories => if p.repositories.Some? then Some(ArrayRef(p.repositories.value)) else None
    case AllTags => if p.allTags.Some? then Some(Items(p.allTags.value)) else None
    case AllStacks => if p.allStacks.Some? then Some(Items(p.allStacks.value)) else None
    case AllUsers => if p.allUsers.Some? then Some(Items(p.allUsers.value)) else None
  }

  /** The payload seen as a JavaScript object. */
  function PatchFields(p: Patch): map<Key, Value>
  {
    map k | k in AllKeys && Provided(p, k).Some? :: Provided(p, k).value
  }

  function Override<T>(o: Option<T>, default: T): T
  {
    if o.Some? then o.value else default
  }

  /** `{ ...state, ...payload }`: every key the payload carries takes the
      payload's value and every other key keeps the state's. */
  function Merge(s: WorkState, p: Patch): (r: WorkState)
    ensures forall k :: Provided(p, k).Some? ==> Get(r, k) == Provided(p, k).value
    ensures forall k :: Provided(p, k).None? ==> Get(r, k) == Get(s, k)
  {
    WorkState(
      Override(p.tags, s.tags),
      Override(p.userRole, s.userRole),
      Override(p.currentProduct, s.currentProduct),
      Override(p.repositories, s.repositories),
      Override(p.allTags, s.allTags),
      Override(p.allStacks, s.allStacks),
      Override(p.allUsers, s.allUsers))
  }

  /** `{ ...p, ...q }`: the payload that carries the keys of both, with `q`'s
      value where both carry a key. */
  function Then(p: Patch, q: Patch): (pq: Patch)
    ensures forall k :: Provided(pq, k) == if Provided(q, k).Some? then Provided(q, k) else Provided(p, k)
  {
    Patch(
      if q.tags.Some? then q.tags else p.tags,
      if q.userRole.Some? then q.userRole else p.userRole,
      if q.currentProduct.Some? then q.currentProduct else p.currentProduct,
      if q.repositories.Some? then q.repositories else p.repositories,
      if q.allTags.Some? then q.allTags else p.allTags,
      if q.allStacks.Some? then q.allStacks else p.allStacks,
      if q.allUsers.Some? then q.allUsers else p.allUsers)
  }

  /** Two states with the same keys and values are the same state. */
  lemma FieldsDetermineState(s: WorkState, t: WorkState)
    requires Fields(s) == Fields(t)
    ensures s == t
  {
    assert Get(s, Tags) == Fields(s)[Tags] == Fields(t)[Tags] == Get(t, Tags);
    assert Get(s, UserRole) == Fields(s)[UserRole] == Fields(t)[UserRole] == Get(t, UserRole);
    assert Get(s, CurrentProduct) == Fields(s)[CurrentProduct] == Fields(t)[CurrentProduct] == Get(t, CurrentProduct);
    assert Get(s, Repositories) == Fields(s)[Repositories] == Fields(t)[Repositories] == Get(t, Repositories);
    assert Get(s, AllTags) == Fields(s)[AllTags] == Fields(t)[AllTags] == Get(t, AllTags);
    assert Get(s, AllStacks) == Fields(s)[AllStacks] == Fields(t)[AllStacks] == Get(t, AllStacks);
    assert Get(s, AllUsers) == Fields(s)[AllUsers] == Fields(t)[AllUsers] == Get(t, AllUsers);
  }

  /** Merge is object spread: the merged object is the state's map of keys
      overridden by the payload's. */
  lemma MergeIsSpread(s: WorkState, p: Patch)
    ensures Fields(Merge(s, p)) == Fields(s) + PatchFields(p)
  {
  }

  /** Conversely, any state whose keys and values are those of the spread is
      the merged state. */
  lemma SpreadIsMerge(s: WorkState, p: Patch, t: WorkState)
    requires Fields(t) == Fields(s) + PatchFields(p)
    ensures t == Merge(s, p)
  {
    MergeIsSpread(s, p);
    FieldsDetermineState(t, Merge(s, p));
  }

  /** Merging the same payload twice gives what merging it once gives. */
  lemma MergeIdempotent(s: WorkState, p: Patch)
    ensures Merge(Merge(s, p), p) == Merge(s, p)
  {
  }

  /** The payload `{}` leaves the state as it is. */
  lemma MergeEmpty(s: WorkState)
    ensures Merge(s, EmptyPatch) == s
  {
  }

  /** Two merges in a row are one merge of the spread payloads. */
  lemma MergeComposes(s: WorkState, p: Patch, q: Patch)
    ensures Merge(Merge(s, p), q) == Merge(s, Then(p, q))
  {
  }

  /** `capabilitySet` of the current product, when it is there. */
  function CapabilityArray(s: WorkState): Option<JsArray>
  {
    if s.currentProduct.Some? then s.currentProduct.value.capabilitySet else None
  }

  /** The arrays an action may push onto in place: for `ADD_CAPABILITY`, the
      `capabilitySet` array shared with the given state. */
  function PushTargets(s: WorkState, action: Action): set<object>
  {
    if action.AddCapability? && CapabilityArray(s).Some? then {CapabilityArray(s).value} else {}
  }

  /** `SET_CAPABILITIES`: a shallow copy of `currentProduct` (of `{}` when it
      is null) with `capabilitySet` replaced, in a shallow copy of the state. */
  function ReplaceCapabilities(s: WorkState, capabilities: JsArray): (r: WorkState)
    ensures r.currentProduct.Some? && CapabilityArray(r) == Some(capabilities)
    ensures s.currentProduct.Some? ==> r.currentProduct.value.otherFields == s.currentProduct.value.otherFields
    ensures s.currentProduct.None? ==> r.currentProduct == Some(Product(Some(capabilities), map[]))
    ensures forall k :: k != CurrentProduct ==> Get(r, k) == Get(s, k)
  {
    var copy := if s.currentProduct.Some? then s.currentProduct.value else NoFields;
    s.(currentProduct := Some(copy.(capabilitySet := Some(capabilities))))
  }

  /** The last `SET_CAPABILITIES` decides the capability set. */
  lemma ReplaceCapabilitiesLastWins(s: WorkState, a: JsArray, b: JsArray)
    ensures ReplaceCapabilities(ReplaceCapabilities(s, a), b) == ReplaceCapabilities(s, b)
  {
  }

  /** `SET_CAPABILITIES` is a merge of a payload that carries only
      `currentProduct`. */
  lemma ReplaceCapabilitiesIsMerge(s: WorkState, a: JsArray)
    ensures ReplaceCapabilities(s, a)
         == Merge(s, EmptyPatch.(currentProduct := Some(Some(
              Override(s.currentProduct, NoFields).(capabilitySet := Some(a))))))
  {
  }

  /** The action kinds. Six kinds merge their payload; `Unrecognised` is any
      kind the reducer has no case for. */
  datatype Action =
    | SaveTags(patch: Patch)
    | SaveUsers(patch: Patch)
    | SaveStacks(patch: Patch)
    | SetCurrentProject(patch: Patch)
    | SetUserRole(patch: Patch)
    | SetWorkState(patch: Patch)
    | AddRepository(repository: Json)
    | SetCapabilities(capabilities: JsArray)
    | AddCapability(capability: Json)
    | Unrecognised(kind: string)
  {
    predicate IsMerge()
    {
      SaveTags? || SaveUsers? || SaveStacks? || SetCurrentProject? || SetUserRole? || SetWorkState?
    }
  }

  /** The `TypeError` that `push` on an undefined `capabilitySet` throws. */
  datatype ReduceError = CapabilitySetUndefined

  /** The state the reducer starts from when it is given none. */
  ghost predicate IsInitial(s: WorkState)
    reads s.repositories
  {
    && s.tags == []
    && s.userRole == ""
    && s.currentProduct == None
    && s.repositories.elems == []
    && s.allTags == []
    && s.allStacks == []
    && s.allUsers == []
  }

  /** The default value of the `state` parameter, allocated anew on each call. */
  method InitialState() returns (s: WorkState)
    ensures fresh(s.repositories)
    ensures IsInitial(s)
  {
    var repositories := new JsArray.Empty();
    s := WorkState([], "", None, repositories, [], [], []);
  }

  /** `workReducer(state, action)`. `state == None` is an omitted state; `start`
      is the state the reducer works from (the given one, or a fresh initial
      one). A `Failure` is the exception the reducer throws. `identical` says
      whether the returned state is the very object `start` (`===`) rather
      than a new object built by spreading it: states are values here, so an
      equal value alone does not tell the two apart. */
  method WorkReducer(state: Option<WorkState>, action: Action)
    returns (r: Result<WorkState, ReduceError>, identical: bool, ghost start: WorkState)
    modifies if state.Some? then PushTargets(state.value, action) else {}
    ensures state.Some? ==> start == state.value
    ensures state.None? ==> fresh(start.repositories) && IsInitial(start)
    // the six merge kinds
    ensures action.IsMerge() ==> r == Success(Merge(start, action.patch))
    // ADD_REPOSITORY: a new array, the old one untouched
    ensures action.AddRepository? ==>
      && r.Success?
      && r.value == start.(repositories := r.value.repositories)
      && fresh(r.value.repositories)
      && r.value.repositories.elems == start.repositories.elems + [action.repository]
    ensures action.AddRepository? && state.Some? ==> unchanged(state.value.repositories)
    // SET_CAPABILITIES
    ensures action.SetCapabilities? ==> r == Success(ReplaceCapabilities(start, action.capabilities))
    // ADD_CAPABILITY: fails without a capabilitySet, else pushes onto the shared array
    ensures action.AddCapability? ==> (r.Success? <==> CapabilityArray(start).Some?)
    ensures action.AddCapability? && r.Failure? ==> r.error == CapabilitySetUndefined
    ensures action.AddCapability? && r.Success? ==>
      && state.Some?
      && r.value == start
      && CapabilityArray(r.value) == CapabilityArray(state.value)
      && CapabilityArray(start).value.elems
         == old(CapabilityArray(state.value).value.elems) + [action.capability]
    // any other kind: the state itself; every other kind returns a new object or throws
    ensures action.Unrecognised? ==> r == Success(start)
    ensures identical <==> action.Unrecognised?
  {
    var s: WorkState;
    if state.Some? {
      s := state.value;
    } else {
      s := InitialState();
    }
    start := s;
    identical := false;
    if action.IsMerge() {
      r := Success(Merge(s, action.patch));
    } else if action.AddRepository? {
      var newRepositories := new JsArray.Copy(s.repositories);
      var length := newRepositories.Push(action.repository);
      r := Success(s.(repositories := newRepositories));
    } else if action.SetCapabilities? {
      r := Success(ReplaceCapabilities(s, action.capabilities));
    } else if action.AddCapability? {
      var newCurrentProduct := if s.currentProduct.Some? then s.currentProduct.value else NoFields;
      if newCurrentProduct.capabilitySet.None? {
        r := Failure(CapabilitySetUndefined);
      } else {
        var length := newCurrentProduct.capabilitySet.value.Push(action.capability);
        r := Success(s.(currentProduct := Some(newCurrentProduct)));
      }
    } else {
      r := Success(s);
      identical := true;
    }
  }
}
