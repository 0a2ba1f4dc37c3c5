# Node-editing panel of the PHPCR browser, modelled in Dafny

This project models `NodeController`, the AngularJS controller behind the
node panel of the PHPCR browser. The controller holds the loaded node and
its typed properties. It also holds two edit forms: a rename form, and a
create-property form with name, value and type. A `$pending` flag is kept
true while either form is open. The controller keeps the search term and
the list of property rows that survive the fuzzy filter.

The model has two modules:

- `Js` (`js.dfy`) covers the JavaScript semantics the controller relies on.
  These are dynamically typed values and truthiness, `String.prototype.trim`,
  and `indexOf`/`replace` with a string pattern. `JSON.parse` and
  `JSON.stringify` are passed in as oracles, where `None` means "throws".
- `NodeControl` (`node_controller.dfy`) holds the data model, the
  property-type table, the pure decisions (the guards of `renameNode` and
  `addProperty`, the drop decision, the cache flag, the route path and the
  tree-path rewrite), and the `NodeController` class itself.

Every asynchronous collaborator becomes an explicit input saying how that
call settles: `Outcome` for `rename`, `createProperty` and
`removeProperty`, `FindResult` for `$graph.find`, and `TreeLookup` for the
tree widget. The fuzzy filter is also an input, given as the sequence of
names it returns. What the controller asks of its collaborators (repository
calls, notifications, tree updates, navigation) comes back from each method
as an `Effect` trace, in call order. A `TypeError` effect marks the points
where the source throws, for example `.trim()` on a non-string. The
initialisation's first load keeps its trace in the field `initEffects`.

User input reaches the forms through the view's two-way binding. In the
model a client assigns the public fields `renameName` and `propertyForm`
directly. `Valid()` constrains only whether the rename form exists, so
assigning `propertyForm`, or `renameName := Some(v)` once a node is loaded,
keeps the invariant. Every method that sets `renameName` itself resets it to the
node's name.

The `$scope.$watch` that recomputes `$pending` is modelled as a field that
every transition sets again at its end. The class invariant `Valid()` states
`pending == renameFormDisplayed || propertyFormDisplayed`, and every method
re-establishes it. `Valid()` also states that the rows shown are always
`DisplayOf` the names last filtered, read from the live property map. Each
state-changing method gives its whole new state as an update of the
snapshot `View()`.

The model follows the code in these places, where it is easy to misread:

- The drop handler is OR-gated. A property dropped anywhere is removed.
  With no property and a truthy trash marker, the handler throws on
  `undefined.name`.
- `$$filterProperties` has no defensive skip of stale names. Every name the
  filter returns must be a key of the map, and that is a precondition.
- `addProperty` tests the name only against `undefined`. A `null` name,
  which is the reset state, throws on `.trim()` and does not show "Name is
  empty". `renameNode` tests against `null` only, so an `undefined` name
  throws there.
- After a failed creation, the form value is `JSON.stringify` of the
  parsed value, which need not be what the user typed: ` 42` comes back
  as `42`, and `hello` as `"hello"`. Text that is already canonical JSON
  comes back unchanged. `NonJsonTextNotRestored` shows that text which is
  not JSON always comes back as its stringification, never as typed.
- A failed reload after a successful creation reaches the same error
  handler after the form has already been emptied. That handler then puts
  `JSON.stringify(null)` into the emptied form's value.
- The tree-path rewrite removes the first `"/root"` wherever it occurs, not
  only a prefix.
- A successful reload also resets the rename form's name to the reloaded
  node's name.

## Model

| member | source | states |
|---|---|---|
| Js.TrimStart | web/assets/js/app/Browser/component/controller/NodeController.js:136 | the result is a suffix of the input, does not start with white space, and only white space was dropped |
| Js.TrimEnd | web/assets/js/app/Browser/component/controller/NodeController.js:136 | the result is a prefix of the input, does not end with white space, and only white space was dropped |
| Js.TrimEmptyIffBlank | web/assets/js/app/Browser/component/controller/NodeController.js:177-183 | `s.trim().length === 0` holds exactly when every character of `s` is white space |
| Js.IndexOfFrom | web/assets/js/app/Browser/component/controller/NodeController.js:154 | the result is -1 or an occurrence at or after `from`, and no occurrence lies between `from` and the result (`indexOf` for `from` at most the length of `s`; the call site passes 0) |
| Js.ReplaceFirst | web/assets/js/app/Browser/component/controller/NodeController.js:154 | without an occurrence the string is unchanged; otherwise exactly the first occurrence is replaced |
| NodeControl.TypeNameTable | web/assets/js/app/Browser/component/controller/NodeController.js:21-35 | the table has 13 codes, code 0 is "undefined", code 1 is "String", and distinct codes have distinct names |
| NodeControl.DisplayOf | web/assets/js/app/Browser/component/controller/NodeController.js:250-263 | exactly one row per filtered name, in the same order, carrying the name, the live value and the table entry for the property's type code |
| NodeControl.CollectDisplay | web/assets/js/app/Browser/component/controller/NodeController.js:255-261 | the push loop builds exactly `DisplayOf` the filtered names |
| NodeControl.NormalizeCache | web/assets/js/app/Browser/component/controller/NodeController.js:77 | `undefined` stays undefined; any other value becomes its truthiness |
| NodeControl.RoutePath | web/assets/js/app/Browser/component/controller/NodeController.js:84 | the path sent to `find` is never empty: the route's path when it is non-empty, otherwise "/" |
| NodeControl.RewriteStripsRootPrefix | web/assets/js/app/Browser/component/controller/NodeController.js:149-154 | the rewrite undoes the `"/root"` prefix under which the tree node was looked up (the `a == ""` case of `RewriteRemovesFirstRoot`) |
| NodeControl.RewriteRemovesFirstRoot | web/assets/js/app/Browser/component/controller/NodeController.js:154 | the rewrite removes the first `"/root"` wherever it stands: `a + "/root" + b` becomes `a + b` when `a` opens no earlier occurrence |
| NodeControl.RenameDecision | web/assets/js/app/Browser/component/controller/NodeController.js:136-142 | "Name is empty" exactly for null or blank names; a throw for other non-strings; no-op close exactly for the unchanged non-blank name; otherwise a rename to the candidate |
| NodeControl.AddDecision | web/assets/js/app/Browser/component/controller/NodeController.js:177-183 | the name is checked first ("Name is empty" for undefined or blank), then the value ("Value is empty"); non-string fields throw; the request proceeds exactly when both are non-blank strings |
| NodeControl.NonJsonTextNotRestored | web/assets/js/app/Browser/component/controller/NodeController.js:193-215 | text that is not JSON is kept raw; after a failure the form holds its stringification, which (parsing back to the string) differs from the typed text |
| NodeControl.DropAction | web/assets/js/app/Browser/component/controller/NodeController.js:63-69 | the drop is ignored exactly when there is no property and no trash; it throws when only the trash is present; otherwise the dragged property's name is removed |
| NodeControl.NodeController.constructor | web/assets/js/app/Browser/component/controller/NodeController.js:18-61 | search null, both forms closed, pending false and the property form all null; the first load sends one `find` for the route with `cache` left undefined, and its outcome decides the node, the rename form and the rows |
| NodeControl.NodeController.FilterProperties | web/assets/js/app/Browser/component/controller/NodeController.js:250-263 | the shown rows become `DisplayOf` the filtered names over the live map, and nothing else changes |
| NodeControl.NodeController.LoadNode | web/assets/js/app/Browser/component/controller/NodeController.js:76-92 | one `find` for the route's repository, workspace and path, with the normalised cache flag; on success the node, the rename form's name and the rows are replaced, on failure nothing changes |
| NodeControl.NodeController.Refresh | web/assets/js/app/Browser/component/controller/NodeController.js:94-98 | a load with `cache` false |
| NodeControl.NodeController.ShowNodeRenameForm | web/assets/js/app/Browser/component/controller/NodeController.js:100-106 | on path "/" nothing changes; otherwise the rename form is displayed and pending becomes true, and nothing else changes |
| NodeControl.NodeController.ShowNodePropertyForm | web/assets/js/app/Browser/component/controller/NodeController.js:108-110 | the property form is displayed and pending becomes true, and nothing else changes |
| NodeControl.NodeController.HideNodePropertyForm | web/assets/js/app/Browser/component/controller/NodeController.js:112-120 | the property form is closed and reset to null name, value and type; pending becomes the rename flag |
| NodeControl.NodeController.HideNodeRenameForm | web/assets/js/app/Browser/component/controller/NodeController.js:122-125 | the rename form is closed and its name reset to the node's name; pending becomes the property flag |
| NodeControl.NodeController.RenameNode | web/assets/js/app/Browser/component/controller/NodeController.js:136-168 | error "Name is empty" with no rename call, a no-op close for the unchanged name, or the rename request with its settled effects; `Valid()` (pending is the OR of the flags) holds afterwards |
| NodeControl.NodeController.CommitRename | web/assets/js/app/Browser/component/controller/NodeController.js:144-167 | on failure the response error and the form stays open; on success the success notice and the tree lookup under "/root"; when the tree node is found its name is set, every walked path is rewritten, the form closes and navigation goes to the tree node's path |
| NodeControl.NodeController.AddProperty | web/assets/js/app/Browser/component/controller/NodeController.js:177-201 | the name and value guards with no `createProperty` call on either error; past them a falsy type becomes 0 and the value is parsed, or kept raw when it is not JSON, before it is sent |
| NodeControl.NodeController.CommitProperty | web/assets/js/app/Browser/component/controller/NodeController.js:201-219 | on creation failure the form stays open with its value stringified; on success the form resets and the node reloads without the cache before "Property created"; a failed reload is reported and leaves the stringified null in the emptied form |
| NodeControl.NodeController.IsPropertyNameValid | web/assets/js/app/Browser/component/controller/NodeController.js:222-228 | false whenever the form's name is already a key of the node's properties, touched or not; otherwise it is `!dirty || !requiredError` |
| NodeControl.NodeController.IsPropertyValueValid | web/assets/js/app/Browser/component/controller/NodeController.js:230-232 | valid when untouched; when touched, valid exactly without a `required` error |
| NodeControl.NodeController.RemovePropertyNamed | web/assets/js/app/Browser/component/controller/NodeController.js:234-248 | one removal request; on failure the error and no change; on success a load without the cache, then "Property removed" only when that load succeeds |
| NodeControl.NodeController.OnElementDrop | web/assets/js/app/Browser/component/controller/NodeController.js:63-69 | an ignored drop does nothing; a drop with only the trash throws; otherwise the dragged property's name goes through the whole removal: request, uncached reload, then the success notice or the error |
| NodeControl.NodeController.OnSearch | web/assets/js/app/Browser/component/controller/NodeController.js:54-59 | the same term again changes nothing; a new term is stored and the rows are rebuilt from the filter's output |

## Left out

- Dependency injection, `$scope.$watch`/`$on` registration and `$event.preventDefault` are AngularJS plumbing. The watch is modelled as recomputation at the end of every transition. Between a change and the next digest, the real `$pending` is stale, and that interval is not modelled.
- `$$destroy` only clears references and cancels the search subscription. There is nothing observable to state about it, so it is not modelled.
- Asynchrony and interleaving: every chain runs to completion inside one method call. A request that never settles, or a user action that arrives while a request is in flight, is not modelled.
- `node.rename`, `createProperty`, `removeProperty`, `$graph.find`, the notifier, `$state.go`, the tree widget's `find`/`attr`/`walkChildren` and `$treeFactory` are foreign calls. Their outcomes are inputs and their calls are `Effect`s. Any in-place update `node.rename` makes to the node object is not modelled, so the model reads the node's path and name as they were before the rename.
- `CommitRename`: a tree lookup that rejects is modelled as `TreeMissing`, with no handler (as in the source). A lookup that resolves with no tree node would instead throw on `.attr`, and that case is not modelled.
- `CommitRename`: which tree nodes `walkChildren` visits is foreign. Their paths are an input, so whether the renamed node's own path gets rewritten is decided by that input.
- The fuzzy-filter algorithm is a black box. Its output for the current keys and term is an input sequence.
- `JSON.parse` and `JSON.stringify` are opaque oracles. Their grammar is not modelled. `JSON.stringify` returning `undefined` cannot happen on the values that reach it here, so it is not modelled.
- JavaScript numbers are modelled as reals. NaN, which is falsy and never `===` itself, is not representable. `!==` on the search term is value equality; it is reference equality for objects, which the search service does not emit.
- Methods that dereference `$scope.node` require a loaded node, where the source would throw a TypeError before the first load completes. These are `ShowNodeRenameForm`, `HideNodeRenameForm`, `RenameNode`, `IsPropertyNameValid`, the request past the guards of `AddProperty`, the removal, the filter and a search-term change.
- `$scope.properties` is `undefined` until the first filter runs. The model starts it as the empty sequence.
