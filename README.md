# Work reducer of the product-factory console

The console keeps a small Redux store that its pages share. It holds the
tags, the user role, the current product (with its capability set), the
repositories, and the lists of all tags, stacks and users. `workReducer`
takes the current state and an action and returns the next state:

- six kinds (`SAVE_TAGS`, `SAVE_USERS`, `SAVE_STACKS`, `SET_CURRENT_PROJECT`,
  `SET_USER_ROLE`, `SET_WORK_STATE`) spread their payload over the state;
- `ADD_REPOSITORY` copies the repositories array and pushes onto the copy;
- `SET_CAPABILITIES` replaces `capabilitySet` in a shallow copy of the
  current product;
- `ADD_CAPABILITY` shallow-copies the current product and pushes onto its
  `capabilitySet`. That array is not copied, so the push also changes the
  state the reducer was given. Without a `capabilitySet` the push throws;
- any other kind returns the given state itself.

The project is three modules:

- `JsValues` (`js_values.dfy`) holds `Option`, `Result`, plain JSON-like
  values, and `JsArray`. A `JsArray` is a class whose `elems` field grows in
  place by `Push`. Two states that hold the same `JsArray` therefore see each
  other's pushes.
- `Work` (`work_reducer.dfy`) holds the state record, the payloads, the pure
  transitions (`Merge`, `ReplaceCapabilities`) and the reducer itself.
  `WorkReducer` is a method because two branches allocate and push. Its
  `modifies` clause names the capability array for `ADD_CAPABILITY` and
  nothing for any other kind. This is how the model shows that
  `ADD_CAPABILITY` changes the prior state and `ADD_REPOSITORY` does not.
- `WorkScenarios` (`work_scenarios.dfy`) holds dispatch sequences and what
  the holder of an earlier state observes after them.

The state object and the product object are modelled as values (datatypes).
The reducer never writes to a state or product object that it did not just
create. A shallow copy is therefore a value copy that still holds the same
array references. A product keeps its `capabilitySet` apart from its other
own fields, and the type of those other fields excludes the key
`capabilitySet`, so each product object has exactly one representation.
Whether the reducer returns its input object itself (`===`) or a new object
is not visible in a value, so `WorkReducer` reports it in its `identical`
result.

The spread semantics has a reference definition. `Fields(s)` views a state as
a map from its keys to their values, and `PatchFields(p)` views a payload the
same way. `{...state, ...payload}` is then the map union
`Fields(s) + PatchFields(p)`. `MergeIsSpread` and `SpreadIsMerge` prove that
`Merge` is exactly this union.

The declared TypeScript type `WorkState` (lib/reducers/work.reducer.ts:3-8)
lists only four keys. The reducer's state is typed `any`, and its default
value has seven keys. The model follows the default value.

`ADD_CAPABILITY` calls `push` on `newCurrentProduct.capabilitySet`
(lib/reducers/work.reducer.ts:40). When the current product is `null` or has
no `capabilitySet`, that property is `undefined` and the call throws a
`TypeError`. The model returns `Failure(CapabilitySetUndefined)` in that case.

## Model

| member | source | states |
|---|---|---|
| `Work.InitialState` | lib/reducers/work.reducer.ts:11-19 | The omitted state has empty `tags`, `allTags`, `allStacks`, `allUsers`, an empty `userRole`, a null `currentProduct`, and a newly allocated empty `repositories` array |
| `Work.WorkReducer` | lib/reducers/work.reducer.ts:10-44 | Per kind: the six merge kinds give `Merge(start, payload)`. `ADD_REPOSITORY` gives a fresh array holding the prior elements in order, then the payload; every other key is unchanged and the prior array is unchanged. `SET_CAPABILITIES` gives `ReplaceCapabilities`. `ADD_CAPABILITY` fails exactly when there is no capability set; otherwise it returns a state equal to the start, holding the same array, which has grown by the payload. An unrecognised kind returns the start state itself: `identical` is true exactly for an unrecognised kind, and every other kind returns a new object or throws. An omitted state starts from the initial one |
| `Work.Merge` | lib/reducers/work.reducer.ts:23-29 | Every key the payload carries takes the payload's value; every other key keeps the prior value |
| `Work.MergeIsSpread` | lib/reducers/work.reducer.ts:29 | The merged state, seen as a map of keys, is the state's map overridden by the payload's (object spread) |
| `Work.SpreadIsMerge` | lib/reducers/work.reducer.ts:29 | Any state whose keys and values are those of the spread is the merged state, so the spread determines `Merge` |
| `Work.FieldsDetermineState` | lib/reducers/work.reducer.ts:11-19 | Two states with the same map of keys and values are equal: the seven keys are the whole state |
| `Work.MergeIdempotent` | lib/reducers/work.reducer.ts:23-29 | Merging the same payload twice equals merging it once |
| `Work.MergeEmpty` | lib/reducers/work.reducer.ts:29 | Merging the payload `{}` leaves the state unchanged |
| `Work.Then` | lib/reducers/work.reducer.ts:29 | Spreading payload `q` over payload `p` carries, for each key, `q`'s value if `q` has the key and `p`'s otherwise |
| `Work.MergeComposes` | lib/reducers/work.reducer.ts:23-29 | Two merges in a row equal one merge of the spread of the two payloads |
| `Work.ReplaceCapabilities` | lib/reducers/work.reducer.ts:34-37 | The result's current product is non-null, and its `capabilitySet` is the payload. The product's other fields are kept. A null product becomes an object whose only field is `capabilitySet`. Every other state key is unchanged |
| `Work.ReplaceCapabilitiesLastWins` | lib/reducers/work.reducer.ts:34-37 | Two `SET_CAPABILITIES` in a row equal the second one alone |
| `Work.ReplaceCapabilitiesIsMerge` | lib/reducers/work.reducer.ts:34-37 | `SET_CAPABILITIES` is a merge of a payload that carries only `currentProduct`, namely the copied product with `capabilitySet` replaced |
| `JsValues.JsArray.Empty` | lib/reducers/work.reducer.ts:12-18 | The array literal `[]` has no elements |
| `JsValues.JsArray.Copy` | lib/reducers/work.reducer.ts:31 | `Object.assign([], src)` is a new array with the elements of `src` in order |
| `JsValues.JsArray.Push` | lib/reducers/work.reducer.ts:32 | `push` appends the element in place and changes nothing but that array |
| `WorkScenarios.SaveTagsFromNothing` | lib/reducers/work.reducer.ts:23-29 | `SAVE_TAGS` with `{tags: ['a','b']}` on no state sets `tags`; every other key keeps its initial value |
| `WorkScenarios.AddRepositoryTwice` | lib/reducers/work.reducer.ts:30-33 | Two `ADD_REPOSITORY` of `{id: 1}` give one and then two repositories. The first result still holds one after the second dispatch |
| `WorkScenarios.AddCapabilityIsSeenByEarlierState` | lib/reducers/work.reducer.ts:38-41 | After `ADD_CAPABILITY`, the state the reducer was given shows the pushed capability as well, because both states hold the same array. The result equals the given state as a value but is not the same object |
| `WorkScenarios.AddCapabilityNeedsCapabilitySet` | lib/reducers/work.reducer.ts:34-41 | `ADD_CAPABILITY` on the initial state throws. After `SET_CAPABILITIES` it appends to the array that was set |
| `WorkScenarios.UnrecognisedKeepsState` | lib/reducers/work.reducer.ts:42-43 | An unrecognised kind hands back the given state object itself |

## Left out

- The `../types` module (action-type constants, `BaseAction`) is not part of this model. Action kinds are the `Action` datatype, and `Unrecognised` stands for every other type string.
- Keys outside the seven of the default state: a `SET_WORK_STATE` payload that carries other keys is not modelled. A payload here can set only those seven keys, each with the type the default state gives it.
- JavaScript object-spread details are not modelled: key order, prototype and non-enumerable properties, and spreading a non-object payload.
- Work.WorkReducer: object identity of states is modelled only by its `identical` result, which compares the returned state with the one it started from; states and products are values, so identity between other pairs of states (for example two results of separate dispatches) and the identity of product objects are not modelled. The reducer never mutates these objects, so no other observable difference exists.
- `Object.assign({}, p)` on a `currentProduct` that is not `null` and not an object (a string, say) is not modelled; `currentProduct` is null or a product.
- `SET_CAPABILITIES` payloads that are not arrays are not modelled. The payload is a `JsArray`, so the other way `push` can fail (calling it on a non-array value) is left out.
- `ADD_CAPABILITY` failing on a `capabilitySet` that holds `null` is folded into "no capability set".
- Sparse arrays and array holes in `Object.assign([], …)` are not modelled.
- Numbers are integers; floating point is left out.
- The unreachable `return state;` after the `switch` (lib/reducers/work.reducer.ts:45) has no counterpart.
- Redux store wiring, the React/Next.js pages, GraphQL queries and mutations, local-storage access and breadcrumb rendering are UI and I/O glue. They are not part of this model.
