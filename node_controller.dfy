/** The node-editing panel of the repository browser: the controller that
    holds the loaded node, the rename form, the create-property form, the
    pending flag, the search term and the filtered list of properties shown.

    Every asynchronous collaborator (the repository, the tree widget, the
    router, the notifier) is replaced by an explicit outcome parameter going
    in and an `Effect` trace coming out, in the order the calls happen. */
module NodeControl {
  import opened Js

  // ---------------------------------------------------------------------
  // Data model
  // ---------------------------------------------------------------------

  /** The type names, indexed by the integer type code a property carries. */
  const PropertyTypes: seq<string> := [
    "undefined", "String", "Binary", "Long", "Double", "Date", "Boolean",
    "Name", "Path", "Reference", "WeakReference", "URI", "Decimal"
  ]

  /** A stored property: its value and its integer type code. */
  datatype Property = Property(value: Value, typeCode: int)

  /** A content node as the repository returns it. */
  datatype Node = Node(path: string, name: string, properties: map<string, Property>)

  /** One row of the property list; `typeName` is `None` where the table lookup
      yields `undefined` (a code outside the table). */
  datatype DisplayProperty = DisplayProperty(name: string, value: Value, typeName: Option<string>)

  /** The create-property form; each field holds whatever the view bound to it. */
  datatype PropertyForm = PropertyForm(name: Value, value: Value, typeCode: Value)

  /** What an input field reports: touched, and failing `required`. */
  datatype FieldState = FieldState(dirty: bool, requiredError: bool)

  /** The route parameters; `path` is absent when the route has none. */
  datatype StateParams = StateParams(repository: string, workspace: string, path: Option<string>)

  /** The identity handed to the repository's `find`. */
  datatype Query = Query(repository: string, workspace: string, path: string)

  /** An opaque failure response of the repository. */
  datatype Response = Response(detail: string)

  /** How a repository mutation (`rename`, `createProperty`,
      `removeProperty`) settles. */
  datatype Outcome = Success | Failure(response: Response)

  /** How a repository `find` settles. */
  datatype FindResult = Found(node: Node) | FindFailed(response: Response)

  /** How the tree widget's `find` settles: rejected, or resolved with a tree
      node; `walked` are the `path` attributes of the nodes `walkChildren`
      visits, `pathAfterWalk` is the found node's own `path` attribute once
      the walk is over. */
  datatype TreeLookup = TreeMissing | TreeFound(walked: seq<string>, pathAfterWalk: string)

  /** A call the controller makes on a collaborator, or a thrown TypeError
      (after which nothing else happens in that call). */
  datatype Effect =
    | Find(query: Query, cache: Option<bool>)
    | Rename(newName: string)
    | CreateProperty(form: PropertyForm)
    | RemoveProperty(name: string)
    | NotifySuccess(message: string)
    | NotifyError(message: string)
    | NotifyErrorFromResponse(response: Response)
    | TreeFind(path: string)
    | TreeSetName(name: string)
    | TreeSetPath(from: string, to: string)
    | Navigate(query: Query)
    | TypeError

  /** Every name of `names` is a key of `props`: the fuzzy filter only ever
      returns names it was given. */
  predicate Shows(names: seq<string>, props: map<string, Property>)
  {
    forall i :: 0 <= i < |names| ==> names[i] in props
  }

  // ---------------------------------------------------------------------
  // Property type table and the filtered property list
  // ---------------------------------------------------------------------

  /** `propertyTypes[code]`: `None` stands for the `undefined` an array
      yields outside its bounds. */
  function TypeName(code: int): Option<string>
  {
    if 0 <= code < |PropertyTypes| then Some(PropertyTypes[code]) else None
  }

  /** The table has 13 codes, code 0 is the "undefined" sentinel, and no
      two codes share a name, so a shown type name identifies its code. */
  lemma TypeNameTable(c: int, d: int)
    ensures TypeName(0) == Some("undefined") && TypeName(1) == Some("String")
    ensures TypeName(c).Some? <==> 0 <= c < 13
    ensures TypeName(c).Some? && TypeName(c) == TypeName(d) ==> c == d
  {
  }

  /** The row shown for property `name`. */
  function Describe(name: string, p: Property): DisplayProperty
  {
    DisplayProperty(name, p.value, TypeName(p.typeCode))
  }

  /** The rows for `names`, in their order, read from the live map. */
  function DisplayOf(names: seq<string>, props: map<string, Property>): (r: seq<DisplayProperty>)
    requires Shows(names, props)
    ensures |r| == |names|
    ensures forall i :: 0 <= i < |r| ==>
      r[i].name == names[i] && r[i].value == props[names[i]].value
      && r[i].typeName == TypeName(props[names[i]].typeCode)
  {
    if names == [] then [] else [Describe(names[0], props[names[0]])] + DisplayOf(names[1..], props)
  }

  /** The `forEach` push loop of the filter: one row per name returned by the
      fuzzy filter, in the same order. */
  method CollectDisplay(names: seq<string>, props: map<string, Property>) returns (rows: seq<DisplayProperty>)
    requires Shows(names, props)
    ensures rows == DisplayOf(names, props)
  {
    rows := [];
    var i := 0;
    while i < |names|
      invariant 0 <= i <= |names|
      invariant |rows| == i
      invariant forall k :: 0 <= k < i ==> rows[k] == Describe(names[k], props[names[k]])
    {
      var name := names[i];
      rows := rows + [Describe(name, props[name])];
      i := i + 1;
    }
  }

  // ---------------------------------------------------------------------
  // Pure decisions
  // ---------------------------------------------------------------------

  /** `cache !== undefined ? !!cache : cache`: `None` is `undefined`. */
  function NormalizeCache(cache: Value): (r: Option<bool>)
    ensures r.None? <==> cache == Undefined
    ensures r.Some? ==> (r.value <==> Truthy(cache))
  {
    if cache != Undefined then Some(Truthy(cache)) else None
  }

  /** `params.path ? params.path : '/'`. */
  function RoutePath(path: Option<string>): (r: string)
    ensures r != ""
    ensures path.Some? && path.value != "" ==> r == path.value
    ensures path.None? || path.value == "" ==> r == "/"
  {
    match path
    case Some(p) => if Truthy(Str(p)) then p else "/"
    case None => "/"
  }

  /** The path rewrite applied to every walked tree node: the first
      `"/root"` is removed, wherever it occurs. */
  function RewritePath(path: string): string
  {
    ReplaceFirst(path, "/root", "")
  }

  /** On a tree path, which is `"/root"` followed by the node path, the
      rewrite gives back the node path: the `a == ""` case of
      `RewriteRemovesFirstRoot` below. */
  lemma RewriteStripsRootPrefix(p: string)
    ensures RewritePath("/root" + p) == p
  {
    RewriteRemovesFirstRoot("", p);
  }

  /** The rewrite is not a prefix strip: the first `"/root"` is removed
      wherever it stands, so `a + "/root" + b` becomes `a + b` whenever `a`
      opens no earlier occurrence; `a == ""` is the tree-path case. */
  lemma RewriteRemovesFirstRoot(a: string, b: string)
    requires forall j :: 0 <= j < |a| ==> !OccursAt(a + "/root" + b, "/root", j)
    ensures RewritePath(a + "/root" + b) == a + b
  {
    var s := a + "/root" + b;
    assert s[|a|..|a| + 5] == "/root";
    assert OccursAt(s, "/root", |a|);
    assert s[..|a|] == a && s[|a| + 5..] == b;
  }

  /** The set-path calls for the walked tree nodes, in walk order. */
  function PathRewrites(walked: seq<string>): seq<Effect>
  {
    seq(|walked|, i requires 0 <= i < |walked| => TreeSetPath(walked[i], RewritePath(walked[i])))
  }

  /** The guards of `renameNode`. */
  datatype RenameGuard = RenameEmpty | RenameThrows | RenameUnchanged | RenameTo(name: string)

  /** `name === null || name.trim().length === 0`, then `name === node.name`.
      `undefined` passes the null test and throws on `.trim()`. */
  function RenameDecision(candidate: Value, current: string): (g: RenameGuard)
    ensures g == RenameEmpty <==> candidate == Null || (candidate.Str? && Blank(candidate.s))
    ensures g == RenameThrows <==> !candidate.Null? && !candidate.Str?
    ensures g == RenameUnchanged <==> candidate == Str(current) && !Blank(current)
    ensures g.RenameTo? <==> candidate.Str? && !Blank(candidate.s) && candidate.s != current
    ensures g.RenameTo? ==> g.name == candidate.s
  {
    match candidate
    case Null => RenameEmpty
    case Str(s) =>
      TrimEmptyIffBlank(s);
      if |Trim(s)| == 0 then RenameEmpty
      else if s == current then RenameUnchanged
      else RenameTo(s)
    case _ => RenameThrows
  }

  /** The guards of `addProperty`. */
  datatype AddGuard = NameEmpty | ValueEmpty | AddThrows | AddProceed(raw: string)

  /** `name === undefined || name.trim().length === 0`, then the same test on
      the value. `null` (the reset state) passes the undefined test and
      throws on `.trim()`. */
  function AddDecision(name: Value, value: Value): (g: AddGuard)
    ensures g == NameEmpty <==> name == Undefined || (name.Str? && Blank(name.s))
    ensures g == ValueEmpty <==>
      name.Str? && !Blank(name.s) && (value == Undefined || (value.Str? && Blank(value.s)))
    ensures g == AddThrows <==>
      (!name.Undefined? && !name.Str?)
      || (name.Str? && !Blank(name.s) && !value.Undefined? && !value.Str?)
    ensures g.AddProceed? <==> name.Str? && !Blank(name.s) && value.Str? && !Blank(value.s)
    ensures g.AddProceed? ==> g.raw == value.s
  {
    match name
    case Undefined => NameEmpty
    case Str(n) =>
      TrimEmptyIffBlank(n);
      if |Trim(n)| == 0 then NameEmpty
      else (
        match value
        case Undefined => ValueEmpty
        case Str(v) =>
          TrimEmptyIffBlank(v);
          if |Trim(v)| == 0 then ValueEmpty else AddProceed(v)
        case _ => AddThrows)
    case _ => AddThrows
  }

  /** `!type ? 0 : type`. */
  function TypeOrDefault(t: Value): Value
  {
    if Truthy(t) then t else Num(0.0)
  }

  /** `try { JSON.parse(raw) } catch { raw }`. */
  function ParseOrRaw(raw: string, parse: Parser): Value
  {
    match parse(raw)
    case Some(v) => v
    case None => Str(raw)
  }

  /** `try { JSON.stringify(v) } catch { v }`. */
  function Stringified(v: Value, stringify: Stringifier): Value
  {
    match stringify(v)
    case Some(s) => Str(s)
    case None => v
  }

  /** The failure path does not give back what the user typed: text that
      is not JSON is kept raw, and after a failure the form shows its JSON
      stringification, which parses back to the string and so differs from
      the text itself. */
  lemma NonJsonTextNotRestored(raw: string, parse: Parser, stringify: Stringifier)
    requires parse(raw) == None
    requires stringify(Str(raw)).Some? && parse(stringify(Str(raw)).value) == Some(Str(raw))
    ensures Stringified(ParseOrRaw(raw, parse), stringify) == Str(stringify(Str(raw)).value)
    ensures Stringified(ParseOrRaw(raw, parse), stringify) != Str(raw)
  {
  }

  /** What the drop handler does. */
  datatype DropDecision = Ignore | DropThrows | Remove(name: string)

  /** `!property && !trash` ignores the drop; otherwise the dragged
      property's name is removed, and a missing property throws on `.name`. */
  function DropAction(property: Option<DisplayProperty>, trash: Value): (d: DropDecision)
    ensures d == Ignore <==> property.None? && !Truthy(trash)
    ensures d == DropThrows <==> property.None? && Truthy(trash)
    ensures d.Remove? <==> property.Some?
    ensures d.Remove? ==> d.name == property.value.name
  {
    if property.None? && !Truthy(trash) then Ignore
    else if property.None? then DropThrows
    else Remove(property.value.name)
  }

  /** Every field of the controller that the view sees. */
  datatype Snapshot = Snapshot(
    search: Value,
    pending: bool,
    renameFormDisplayed: bool,
    propertyFormDisplayed: bool,
    node: Option<Node>,
    renameName: Option<Value>,
    propertyForm: PropertyForm,
    properties: seq<DisplayProperty>,
    initEffects: seq<Effect>)

  /** The create-property form as it is created and reset: all `null`. */
  const EmptyPropertyForm := PropertyForm(Null, Null, Null)

  /** The view once the rename form is closed and reset to `name`. */
  ghost function RenameClosed(s: Snapshot, name: string): Snapshot
  {
    s.(renameFormDisplayed := false, pending := s.propertyFormDisplayed, renameName := Some(Str(name)))
  }

  /** The view once the create-property form is closed and emptied. */
  ghost function PropertyClosed(s: Snapshot): Snapshot
  {
    s.(propertyFormDisplayed := false, pending := s.renameFormDisplayed, propertyForm := EmptyPropertyForm)
  }

  /** The view once node `n` is loaded and its rows built from `matched`. */
  ghost function Loaded(s: Snapshot, n: Node, matched: seq<string>): Snapshot
    requires Shows(matched, n.properties)
  {
    s.(node := Some(n), renameName := Some(Str(n.name)), properties := DisplayOf(matched, n.properties))
  }

  // ---------------------------------------------------------------------
  // The controller
  // ---------------------------------------------------------------------

  class NodeController {
    const params: StateParams
    /** The current search term. */
    var search: Value
    /** Recomputed by the watch as the OR of the two display flags. */
    var pending: bool
    var renameFormDisplayed: bool
    var propertyFormDisplayed: bool
    /** Undefined until the first load succeeds. */
    var node: Option<Node>
    /** The rename form's `name`; the form exists once a node is loaded. */
    var renameName: Option<Value>
    var propertyForm: PropertyForm
    /** The rows shown for the filtered properties. */
    var properties: seq<DisplayProperty>
    /** The names the fuzzy filter last returned. */
    ghost var shownNames: seq<string>
    /** The calls made by the first load, which initialisation starts. */
    var initEffects: seq<Effect>

    /** The flags and forms agree: `pending` is what the watch computes and
        the rename form exists exactly when a node is loaded. */
    ghost predicate Consistent()
      reads this
    {
      && pending == (renameFormDisplayed || propertyFormDisplayed)
      && (node.Some? <==> renameName.Some?)
      && (node.None? ==> properties == [])
    }

    /** The shown rows are read from the live property map. */
    ghost predicate RowsLive()
      reads this
    {
      node.Some? ==>
        Shows(shownNames, node.value.properties)
        && properties == DisplayOf(shownNames, node.value.properties)
    }

    ghost predicate Valid()
      reads this
    {
      Consistent() && RowsLive()
    }

    ghost function View(): Snapshot
      reads this
    {
      Snapshot(search, pending, renameFormDisplayed, propertyFormDisplayed,
               node, renameName, propertyForm, properties, initEffects)
    }

    /** The query every load sends. */
    function LoadQuery(): Query
    {
      Query(params.repository, params.workspace, RoutePath(params.path))
    }

    /** Initialisation followed by the first load (with `cache` undefined),
        settling as `initial`; `matched` is what the fuzzy filter returns. */
    constructor (params: StateParams, initial: FindResult, matched: seq<string>)
      requires initial.Found? ==> Shows(matched, initial.node.properties)
      ensures Valid() && this.params == params
      ensures search == Null && !renameFormDisplayed && !propertyFormDisplayed && !pending
      ensures propertyForm == EmptyPropertyForm
      ensures initEffects == [Find(LoadQuery(), None)]
      ensures initial.FindFailed? ==> node == None && renameName == None && properties == []
      ensures initial.Found? ==>
        node == Some(initial.node) && renameName == Some(Str(initial.node.name))
        && properties == DisplayOf(matched, initial.node.properties)
    {
      this.params := params;
      search := Null;
      pending := false;
      renameFormDisplayed := false;
      propertyFormDisplayed := false;
      propertyForm := EmptyPropertyForm;
      node := None;
      renameName := None;
      properties := [];
      shownNames := [];
      initEffects := [];
      new;
      initEffects := LoadNode(Undefined, initial, matched);
    }

    /** Rebuilds the shown rows from the names the fuzzy filter returns for
        the live property map and the current term. */
    method FilterProperties(matched: seq<string>)
      requires Consistent() && node.Some? && Shows(matched, node.value.properties)
      modifies this
      ensures Valid() && shownNames == matched
      ensures View() == old(View()).(properties := DisplayOf(matched, old(node).value.properties))
    {
      properties := CollectDisplay(matched, node.value.properties);
      shownNames := matched;
    }

    /** Loads the node of the current route; on success the node, the rename
        form and the rows are replaced, on failure nothing changes. */
    method LoadNode(cache: Value, result: FindResult, matched: seq<string>) returns (effects: seq<Effect>)
      requires Valid()
      requires result.Found? ==> Shows(matched, result.node.properties)
      modifies this
      ensures Valid()
      ensures effects == [Find(LoadQuery(), NormalizeCache(cache))]
      ensures result.FindFailed? ==> View() == old(View())
      ensures result.Found? ==>
        View() == Loaded(old(View()), result.node, matched)
    {
      effects := [Find(LoadQuery(), NormalizeCache(cache))];
      if result.Found? {
        node := Some(result.node);
        renameName := Some(Str(result.node.name));
        FilterProperties(matched);
      }
    }

    /** A reload that bypasses the cache. */
    method Refresh(result: FindResult, matched: seq<string>) returns (effects: seq<Effect>)
      requires Valid()
      requires result.Found? ==> Shows(matched, result.node.properties)
      modifies this
      ensures Valid()
      ensures effects == [Find(LoadQuery(), Some(false))]
      ensures result.FindFailed? ==> View() == old(View())
      ensures result.Found? ==>
        View() == Loaded(old(View()), result.node, matched)
    {
      effects := LoadNode(Bool(false), result, matched);
    }

    /** Opens the rename form, except on the root node. */
    method ShowNodeRenameForm()
      requires Valid() && node.Some?
      modifies this
      ensures Valid()
      ensures old(node).value.path == "/" ==> View() == old(View())
      ensures old(node).value.path != "/" ==>
        View() == old(View()).(renameFormDisplayed := true, pending := true)
    {
      if node.value.path == "/" {
        return;
      }
      renameFormDisplayed := true;
      pending := renameFormDisplayed || propertyFormDisplayed;
    }

    /** Opens the create-property form. */
    method ShowNodePropertyForm()
      requires Valid()
      modifies this
      ensures Valid()
      ensures View() == old(View()).(propertyFormDisplayed := true, pending := true)
    {
      propertyFormDisplayed := true;
      pending := renameFormDisplayed || propertyFormDisplayed;
    }

    /** Closes the create-property form and empties it. */
    method HideNodePropertyForm()
      requires Valid()
      modifies this
      ensures Valid()
      ensures View() == PropertyClosed(old(View()))
    {
      propertyFormDisplayed := false;
      propertyForm := EmptyPropertyForm;
      pending := renameFormDisplayed || propertyFormDisplayed;
    }

    /** Closes the rename form and puts the node's name back in it. */
    method HideNodeRenameForm()
      requires Valid() && node.Some?
      modifies this
      ensures Valid()
      ensures View() == RenameClosed(old(View()), old(node).value.name)
    {
      renameFormDisplayed := false;
      renameName := Some(Str(node.value.name));
      pending := renameFormDisplayed || propertyFormDisplayed;
    }

    /** Submits the rename form. `renamed` is how `node.rename` settles and
        `tree` how the tree widget's lookup of the old path settles. */
    method RenameNode(renamed: Outcome, tree: TreeLookup) returns (effects: seq<Effect>)
      requires Valid() && node.Some?
      modifies this
      ensures Valid()
      ensures var g := RenameDecision(old(renameName).value, old(node).value.name);
        && (g == RenameEmpty ==> effects == [NotifyError("Name is empty")] && View() == old(View()))
        && (g == RenameThrows ==> effects == [TypeError] && View() == old(View()))
        && (g == RenameUnchanged ==>
              effects == [] && View() == RenameClosed(old(View()), old(node).value.name))
        && (g.RenameTo? ==> RenameSettled(g.name, renamed, tree, old(node).value, old(View()), View(), effects))
    {
      var g := RenameDecision(renameName.value, node.value.name);
      match g
      case RenameEmpty =>
        effects := [NotifyError("Name is empty")];
      case RenameThrows =>
        effects := [TypeError];
      case RenameUnchanged =>
        effects := [];
        HideNodeRenameForm();
      case RenameTo(name) =>
        effects := CommitRename(name, renamed, tree);
    }

    /** How a rename request to `name` on node `n` plays out: on failure the
        error is shown and the form stays open; on success the tree is
        looked up under `"/root"` and, when found, renamed, its walked paths
        rewritten, the form closed and the router sent to the new path. */
    ghost predicate RenameSettled(name: string, renamed: Outcome, tree: TreeLookup, n: Node,
                                  before: Snapshot, after: Snapshot, effects: seq<Effect>)
    {
      && (renamed.Failure? ==>
            effects == [Rename(name), NotifyErrorFromResponse(renamed.response)] && after == before)
      && (renamed.Success? && tree.TreeMissing? ==>
            effects == [Rename(name), NotifySuccess("Node renamed"), TreeFind("/root" + n.path)]
            && after == before)
      && (renamed.Success? && tree.TreeFound? ==>
            effects == [Rename(name), NotifySuccess("Node renamed"), TreeFind("/root" + n.path),
                        TreeSetName(name)]
                       + PathRewrites(tree.walked)
                       + [Navigate(Query(params.repository, params.workspace, tree.pathAfterWalk))]
            && after == RenameClosed(before, n.name))
    }

    /** The asynchronous part of `renameNode`, past its guards. */
    method CommitRename(name: string, renamed: Outcome, tree: TreeLookup) returns (effects: seq<Effect>)
      requires Valid() && node.Some?
      modifies this
      ensures Valid()
      ensures RenameSettled(name, renamed, tree, old(node).value, old(View()), View(), effects)
    {
      effects := [Rename(name)];
      if renamed.Failure? {
        effects := effects + [NotifyErrorFromResponse(renamed.response)];
        return;
      }
      effects := effects + [NotifySuccess("Node renamed"), TreeFind("/root" + node.value.path)];
      if tree.TreeMissing? {
        return;
      }
      effects := effects + [TreeSetName(name)] + PathRewrites(tree.walked);
      HideNodeRenameForm();
      effects := effects + [Navigate(Query(params.repository, params.workspace, tree.pathAfterWalk))];
    }

    /** Submits the create-property form. `created` is how `createProperty`
        settles and `reload` how the reload after a successful creation
        settles; JSON is reached through `parse` and `stringify`. */
    method AddProperty(parse: Parser, stringify: Stringifier, created: Outcome,
                       reload: FindResult, matched: seq<string>) returns (effects: seq<Effect>)
      requires Valid()
      requires AddDecision(propertyForm.name, propertyForm.value).AddProceed? ==> node.Some?
      requires reload.Found? ==> Shows(matched, reload.node.properties)
      modifies this
      ensures Valid()
      ensures var g := AddDecision(old(propertyForm).name, old(propertyForm).value);
        && (g == NameEmpty ==> effects == [NotifyError("Name is empty")] && View() == old(View()))
        && (g == ValueEmpty ==> effects == [NotifyError("Value is empty")] && View() == old(View()))
        && (g == AddThrows ==> effects == [TypeError] && View() == old(View()))
        && (g.AddProceed? ==>
              var sent := PropertyForm(old(propertyForm).name, ParseOrRaw(g.raw, parse),
                                       TypeOrDefault(old(propertyForm).typeCode));
              PropertySettled(sent, stringify, created, reload, matched, old(View()), View(), effects))
    {
      var g := AddDecision(propertyForm.name, propertyForm.value);
      match g
      case NameEmpty =>
        effects := [NotifyError("Name is empty")];
      case ValueEmpty =>
        effects := [NotifyError("Value is empty")];
      case AddThrows =>
        effects := [TypeError];
      case AddProceed(raw) =>
        if !Truthy(propertyForm.typeCode) {
          propertyForm := propertyForm.(typeCode := Num(0.0));
        }
        var value := ParseOrRaw(raw, parse);
        propertyForm := propertyForm.(value := value);
        effects := CommitProperty(stringify, created, reload, matched);
    }

    /** How a creation request for form `sent` plays out. On failure the
        error is shown and the form stays open with its (parsed) value
        stringified. On success the form is emptied and the node reloaded
        without the cache; only after a successful reload is success shown.
        A failed reload lands in the same error handler, which then
        stringifies the emptied form's `null` value. */
    ghost predicate PropertySettled(sent: PropertyForm, stringify: Stringifier, created: Outcome,
                                    reload: FindResult, matched: seq<string>,
                                    before: Snapshot, after: Snapshot, effects: seq<Effect>)
    {
      && (created.Failure? ==>
            effects == [CreateProperty(sent), NotifyErrorFromResponse(created.response)]
            && after == before.(propertyForm := sent.(value := Stringified(sent.value, stringify))))
      && (created.Success? && reload.FindFailed? ==>
            effects == [CreateProperty(sent), Find(LoadQuery(), Some(false)),
                        NotifyErrorFromResponse(reload.response)]
            && after == PropertyClosed(before).(propertyForm := EmptyPropertyForm.(value := Stringified(Null, stringify))))
      && (created.Success? && reload.Found? ==>
            && Shows(matched, reload.node.properties)
            && effects == [CreateProperty(sent), Find(LoadQuery(), Some(false)), NotifySuccess("Property created")]
            && after == Loaded(PropertyClosed(before), reload.node, matched))
    }

    /** The asynchronous part of `addProperty`, once the form holds the
        value and type that are sent. */
    method CommitProperty(stringify: Stringifier, created: Outcome, reload: FindResult, matched: seq<string>)
      returns (effects: seq<Effect>)
      requires Valid() && node.Some?
      requires reload.Found? ==> Shows(matched, reload.node.properties)
      modifies this
      ensures Valid()
      ensures PropertySettled(old(propertyForm), stringify, created, reload, matched, old(View()), View(), effects)
    {
      effects := [CreateProperty(propertyForm)];
      if created.Success? {
        HideNodePropertyForm();
        var found := LoadNode(Bool(false), reload, matched);
        effects := effects + found;
        if reload.Found? {
          effects := effects + [NotifySuccess("Property created")];
          return;
        }
      }
      // Reached when the creation fails, and also when the reload after
      // a successful creation fails (the form is already empty then).
      var err := if created.Failure? then created.response else reload.response;
      propertyForm := propertyForm.(value := Stringified(propertyForm.value, stringify));
      effects := effects + [NotifyErrorFromResponse(err)];
    }

    /** `isPropertyNameValid`: the `required` check, and the name must not
        already be a key of the node's properties. */
    function IsPropertyNameValid(nameField: FieldState): (r: bool)
      reads this
      requires node.Some?
      ensures propertyForm.name.Str? && propertyForm.name.s in node.value.properties ==> !r
      ensures !(propertyForm.name.Str? && propertyForm.name.s in node.value.properties) ==>
        (r <==> !nameField.dirty || !nameField.requiredError)
    {
      var valid := !nameField.dirty || (nameField.dirty && !nameField.requiredError);
      var known := (match propertyForm.name
        case Str(n) => n in node.value.properties.Keys
        case _ => false);
      valid && !known
    }

    /** `isPropertyValueValid`: only the `required` check of a touched field. */
    function IsPropertyValueValid(valueField: FieldState): (r: bool)
      ensures !valueField.dirty ==> r
      ensures valueField.dirty ==> (r <==> !valueField.requiredError)
    {
      !valueField.dirty || (valueField.dirty && !valueField.requiredError)
    }

    /** How a removal request for `name` plays out: on failure the error is
        shown; on success the node is reloaded without the cache, and only
        a successful reload is followed by the success notice. */
    ghost predicate RemoveSettled(name: string, removed: Outcome, reload: FindResult, matched: seq<string>,
                                  before: Snapshot, after: Snapshot, effects: seq<Effect>)
    {
      && (removed.Failure? ==>
            effects == [RemoveProperty(name), NotifyErrorFromResponse(removed.response)] && after == before)
      && (removed.Success? && reload.FindFailed? ==>
            effects == [RemoveProperty(name), Find(LoadQuery(), Some(false)), NotifyErrorFromResponse(reload.response)]
            && after == before)
      && (removed.Success? && reload.Found? ==>
            && Shows(matched, reload.node.properties)
            && effects == [RemoveProperty(name), Find(LoadQuery(), Some(false)), NotifySuccess("Property removed")]
            && after == Loaded(before, reload.node, matched))
    }

    /** `$$removeProperty`: `removed` is how `removeProperty` settles and
        `reload` how the reload after a successful removal settles. */
    method RemovePropertyNamed(name: string, removed: Outcome, reload: FindResult, matched: seq<string>)
      returns (effects: seq<Effect>)
      requires Valid() && node.Some?
      requires reload.Found? ==> Shows(matched, reload.node.properties)
      modifies this
      ensures Valid()
      ensures RemoveSettled(name, removed, reload, matched, old(View()), View(), effects)
    {
      effects := [RemoveProperty(name)];
      if removed.Failure? {
        effects := effects + [NotifyErrorFromResponse(removed.response)];
        return;
      }
      var found := LoadNode(Bool(false), reload, matched);
      effects := effects + found;
      if reload.Found? {
        effects := effects + [NotifySuccess("Property removed")];
      } else {
        effects := effects + [NotifyErrorFromResponse(reload.response)];
      }
    }

    /** The element-drop listener: `property` is the dragged property (if
        any) and `trash` the drop target's trash marker. */
    method OnElementDrop(property: Option<DisplayProperty>, trash: Value, removed: Outcome,
                         reload: FindResult, matched: seq<string>) returns (effects: seq<Effect>)
      requires Valid()
      requires DropAction(property, trash).Remove? ==> node.Some?
      requires reload.Found? ==> Shows(matched, reload.node.properties)
      modifies this
      ensures Valid()
      ensures DropAction(property, trash) == Ignore ==> effects == [] && View() == old(View())
      ensures DropAction(property, trash) == DropThrows ==> effects == [TypeError] && View() == old(View())
      ensures DropAction(property, trash).Remove? ==>
        RemoveSettled(property.value.name, removed, reload, matched, old(View()), View(), effects)
    {
      match DropAction(property, trash)
      case Ignore =>
        effects := [];
      case DropThrows =>
        effects := [TypeError];
      case Remove(name) =>
        effects := RemovePropertyNamed(name, removed, reload, matched);
    }

    /** The search listener: a new term is stored and the rows are rebuilt;
        the same term again changes nothing. */
    method OnSearch(term: Value, matched: seq<string>)
      requires Valid()
      requires term != search ==> node.Some? && Shows(matched, node.value.properties)
      modifies this
      ensures Valid()
      ensures term == old(search) ==> View() == old(View())
      ensures term != old(search) ==>
        View() == old(View()).(search := term, properties := DisplayOf(matched, old(node).value.properties))
    {
      if search != term {
        search := term;
        FilterProperties(matched);
      }
    }
  }
}
