/** The canonical engine (src/state.rs, src/context.rs, src/option.rs and
    src/serde_state.rs). A wizard is a graph of nodes: options menus
    (`OptionsState`), forms of fields filled in order (`ContextState`) and
    placeholders that load and build their node on first use
    (`StateHolder`). Each node keeps a cursor that `Input`, `Output` and
    `Back` move; `Collect` walks the parent chain and gathers the answers.
    The four source files refer to each other in a cycle, so they form one
    module here. */
module Engine {
  import opened Records
  import opened Descriptions
  import opened Navigation

  /** A built node: the `OptionsState` and `ContextState` variants of `State`. */
  datatype Node = MenuNode(menu: OptionsState) | FormNode(form: ContextState)

  /** Any variant of `State`: a built node or a placeholder for one. */
  datatype StateRef = Built(node: Node) | Holder(holder: StateHolder)

  /** A field: plain text, or a verified-option field that opens the menu
      generated for it. */
  datatype Context =
    | StateContext(name: string, value: string)
    | StateOptionsContext(name: string, value: string, state: OptionsState)
  {
    /** `Context::input`: either kind stores the raw line as its value. */
    function WithInput(input: string): (c: Context)
      ensures c.name == name && c.value == input
      ensures c.StateContext? == StateContext?
      ensures StateOptionsContext? ==> c.state == state
    {
      this.(value := input)
    }

    /** `Context::output`: a plain field never leads anywhere; a
        verified-option field always leads to its menu, because asking a
        menu to materialise itself yields nothing and the field then falls
        back on the menu itself. */
    function Leads(): (r: Option<Node>)
      ensures StateContext? <==> r.None?
      ensures StateOptionsContext? ==> r == Some(MenuNode(state))
    {
      match this
      case StateContext(_, _) => None
      case StateOptionsContext(_, _, m) => Some(MenuNode(m))
    }
  }

  /** A menu entry: its name, the node it leads to, and whether choosing it
      submits. */
  datatype StateOption = StateOption(name: string, state: StateRef, submit: bool) {
    /** `StateOption::input`: exact, case-sensitive equality. */
    predicate Input(input: string) {
      name == input
    }
  }

  datatype InputStatus = InputStatus(stateChanged: bool, state: Option<Node>, submit: bool, inputRecognized: bool)

  datatype OutputStatus = OutputStatus(stateChanged: bool, state: Option<Node>, submit: bool, output: Option<Output>)

  /** What `on_highest_index` writes into a status: where to go and whether
      to submit (it always sets `state_changed`). */
  datatype Completion = Completion(state: Option<Node>, submit: bool)

  function NameOf(n: Node): string {
    match n
    case MenuNode(m) => m.name
    case FormNode(f) => f.name
  }

  function DescriptionOf(n: Node): string {
    match n
    case MenuNode(m) => m.description
    case FormNode(f) => f.description
  }

  function ParentOf(n: Node): Option<Node> {
    match n
    case MenuNode(m) => m.parent
    case FormNode(f) => f.parent
  }

  /** `State::get_name`; a placeholder is named by its path. */
  function StateName(s: StateRef): (name: string)
    ensures s.Holder? ==> name == s.holder.path
    ensures s.Built? ==> name == NameOf(s.node)
  {
    match s
    case Built(n) => NameOf(n)
    case Holder(h) => h.path
  }

  ghost function DepthOf(n: Node): nat {
    match n
    case MenuNode(m) => m.depth
    case FormNode(f) => f.depth
  }

  /** The depth a node created under `parent` receives. */
  ghost function DepthUnder(parent: Option<Node>): nat {
    if parent.Some? then DepthOf(parent.value) + 1 else 0
  }

  /** Every node on the parent chain is strictly deeper than its parent, so
      the chain is finite. Every node the constructors create satisfies it
      when its parent does. */
  ghost predicate ChainOk(n: Node)
    decreases DepthOf(n)
  {
    ParentOf(n).Some? ==> DepthOf(ParentOf(n).value) < DepthOf(n) && ChainOk(ParentOf(n).value)
  }

  /** The nodes from the root of the parent chain down to `n`. */
  ghost function Lineage(n: Node): (s: seq<Node>)
    requires ChainOk(n)
    decreases DepthOf(n)
    ensures |s| >= 1 && s[|s| - 1] == n
  {
    (if ParentOf(n).Some? then Lineage(ParentOf(n).value) else []) + [n]
  }

  /** What a node may write when it steps its parent's cursor back. */
  function FormSet(n: Option<Node>): set<object> {
    if n.Some? && n.value.FormNode? then {n.value.form} else {}
  }

  /** What resolving a target may write: the placeholder and its cache. */
  function TargetFrame(s: StateRef): set<object> {
    if s.Holder? then {s.holder, s.holder.cache} else {}
  }

  function NextFrame(next: Option<StateRef>): set<object> {
    if next.Some? then TargetFrame(next.value) else {}
  }

  function OptionFrames(os: seq<StateOption>): set<object> {
    set i, o | 0 <= i < |os| && o in TargetFrame(os[i].state) :: o
  }

  function Names(os: seq<StateOption>): (names: seq<string>)
    ensures |names| == |os| && forall i :: 0 <= i < |os| ==> names[i] == os[i].name
  {
    seq(|os|, i requires 0 <= i < |os| => os[i].name)
  }

  /** The node a target currently stands for: a placeholder's memoised node;
      nothing for a built node, which `into_state_sandwich` does not hand
      out. */
  ghost function Materialised(s: StateRef): Option<Node>
    reads if s.Holder? then {s.holder} else {}
  {
    if s.Holder? then s.holder.state else None
  }

  /** Cache entries are never replaced or dropped. */
  ghost predicate CacheGrows(before: map<string, Node>, after: map<string, Node>) {
    forall k :: k in before ==> k in after && after[k] == before[k]
  }

  /** Keys added to the cache have a rank below `bound`. */
  ghost predicate NewKeysBelow(before: map<string, Node>, after: map<string, Node>, rank: string -> nat, bound: nat) {
    forall k :: k in after && k !in before ==> rank(k) < bound
  }

  /** The path-keyed cache shared by every placeholder of a wizard. */
  class Cache {
    var entries: map<string, Node>

    constructor ()
      ensures entries == map[]
    {
      entries := map[];
    }
  }

  /** A placeholder for the node stored at `path`: the loader at
      `whichFunction` yields its description, which is built on first use
      and memoised here and in the cache. */
  class StateHolder {
    const parent: Option<Node>
    const path: string
    const howToGetString: Source
    const whichFunction: nat
    var state: Option<Node>
    const cache: Cache

    constructor Init(parent: Option<Node>, path: string, howToGetString: Source, whichFunction: nat, cache: Cache)
      ensures this.parent == parent && this.path == path && this.howToGetString == howToGetString
      ensures this.whichFunction == whichFunction && this.cache == cache && state == None
    {
      this.parent := parent;
      this.path := path;
      this.howToGetString := howToGetString;
      this.whichFunction := whichFunction;
      this.cache := cache;
      state := None;
    }

    /** `StateHolder::new`: a placeholder that, unless `lazy`, resolves at
        once; a failed resolution fails the creation. */
    static method New(parent: Option<Node>, path: string, howToGetString: Source, whichFunction: nat,
                      lazy: bool, cache: Cache, ghost bound: nat)
      returns (r: Outcome<StateHolder>)
      requires !lazy ==> howToGetString.rank(path) < bound
      modifies cache
      decreases bound, 1, 0
      ensures r.Ok? || r.Failed?
      ensures r.Ok? ==> fresh(r.value)
      ensures r.Ok? ==> r.value.parent == parent && r.value.path == path && r.value.cache == cache
      ensures r.Ok? ==> r.value.howToGetString == howToGetString && r.value.whichFunction == whichFunction
      ensures lazy ==> r.Ok? && r.value.state == None && cache.entries == old(cache.entries)
      ensures !lazy && r.Ok? ==> r.value.state.Some? && path in cache.entries && cache.entries[path] == r.value.state.value
      ensures !lazy && (path in old(cache.entries) || LoadsBuildable(howToGetString, whichFunction, path)) ==> r.Ok?
      ensures CacheGrows(old(cache.entries), cache.entries)
      ensures NewKeysBelow(old(cache.entries), cache.entries, howToGetString.rank, bound)
    {
      var h := new StateHolder.Init(parent, path, howToGetString, whichFunction, cache);
      if !lazy {
        var s := h.IntoStateSandwich();
        if !s.Ok? {
          return s.Propagate();
        }
      }
      r := Ok(h);
    }

    /** `into_state_sandwich` on a placeholder: the memoised node if there
        is one; else the cache entry for the path, adopted; else the node
        loaded and built now, then memoised and cached. */
    method IntoStateSandwich() returns (r: Outcome<Node>)
      modifies this, cache
      decreases howToGetString.rank(path) + 1, 0, 0
      ensures r.Ok? || r.Failed?
      ensures r.Ok? ==> state == Some(r.value)
      ensures !r.Ok? ==> state == old(state)
      ensures old(state).Some? ==> r == Ok(old(state).value) && unchanged(this) && unchanged(cache)
      ensures old(state).None? && path in old(cache.entries) ==>
                r == Ok(old(cache.entries)[path]) && cache.entries == old(cache.entries)
      ensures old(state).None? && path !in old(cache.entries) && whichFunction >= |howToGetString.loaders| ==>
                r == Failed(FunctionNotFound) && cache.entries == old(cache.entries)
      ensures old(state).None? && path !in old(cache.entries) && whichFunction < |howToGetString.loaders| &&
              howToGetString.loaders[whichFunction](path).LoadError? ==>
                r == Failed(LoadFailed(howToGetString.loaders[whichFunction](path).message)) &&
                cache.entries == old(cache.entries)
      ensures old(state).None? && path !in old(cache.entries) && LoadsBuildable(howToGetString, whichFunction, path) ==>
                r.Ok?
      ensures old(state).None? && r.Ok? ==> path in cache.entries && cache.entries[path] == r.value
      ensures old(state).None? && path !in old(cache.entries) && r.Ok? ==>
                whichFunction < |howToGetString.loaders| &&
                howToGetString.loaders[whichFunction](path).Parsed? &&
                NameOf(r.value) == howToGetString.loaders[whichFunction](path).state.name &&
                ParentOf(r.value) == parent
      ensures old(state).None? && path !in old(cache.entries) && r.Ok? ==>
                var d := howToGetString.loaders[whichFunction](path).state;
                (r.value.MenuNode? <==> d.kind.OptionsKind?) &&
                (r.value.MenuNode? ==> BuiltMenu(r.value.menu, d.kind.options)) &&
                (r.value.FormNode? ==> BuiltForm(r.value.form, d.kind))
      ensures CacheGrows(old(cache.entries), cache.entries)
      ensures forall k :: k in cache.entries && k !in old(cache.entries) ==> howToGetString.rank(k) <= howToGetString.rank(path)
    {
      if state.Some? {
        return Ok(state.value);
      }
      if path in cache.entries {
        state := Some(cache.entries[path]);
        return Ok(state.value);
      }
      if whichFunction >= |howToGetString.loaders| {
        return Failed(FunctionNotFound);
      }
      var loaded := howToGetString.loaders[whichFunction](path);
      if loaded.LoadError? {
        return Failed(LoadFailed(loaded.message));
      }
      var built := IntoState(loaded.state, parent, howToGetString, cache, howToGetString.rank(path));
      if !built.Ok? {
        return built.Escalate().Propagate();
      }
      state := Some(built.value);
      cache.entries := cache.entries[path := built.value];
      r := Ok(built.value);
    }
  }

  /** A target that resolves whatever its loader does next: it is built,
      its placeholder holds its node, the shared cache holds the path, or
      the loader yields a description that builds without further loading. */
  ghost predicate Resolvable(s: StateRef)
    reads if s.Holder? then {s.holder, s.holder.cache} else {}
  {
    s.Built? || s.holder.state.Some? || s.holder.path in s.holder.cache.entries ||
    LoadsBuildable(s.holder.howToGetString, s.holder.whichFunction, s.holder.path)
  }

  /** `State::into_state_sandwich`: built nodes yield nothing, placeholders
      their (possibly just built) node. */
  method IntoStateSandwich(s: StateRef) returns (r: Outcome<Option<Node>>)
    modifies TargetFrame(s)
    ensures old(Resolvable(s)) ==> r.Ok?
    ensures s.Built? ==> r == Ok(None)
    ensures r.Ok? || r.Failed?
    ensures r.Ok? ==> r.value == Materialised(s)
    ensures s.Holder? && r.Ok? ==> s.holder.state.Some?
    ensures s.Holder? && old(s.holder.state).Some? ==> unchanged(s.holder) && unchanged(s.holder.cache) && r.Ok?
    ensures s.Holder? && !r.Ok? ==> s.holder.state == old(s.holder.state)
    ensures s.Holder? ==> CacheGrows(old(s.holder.cache.entries), s.holder.cache.entries)
  {
    match s
    case Built(_) => r := Ok(None);
    case Holder(h) =>
      var n := h.IntoStateSandwich();
      if n.Ok? {
        r := Ok(Some(n.value));
      } else {
        r := n.Propagate();
      }
  }

  /** The node a target stands for: a built node itself, a placeholder its
      memoised node. */
  ghost function Current(s: StateRef): Option<Node>
    reads if s.Holder? then {s.holder} else {}
  {
    if s.Holder? then s.holder.state else Some(s.node)
  }

  /** The evidently intended `into_state_sandwich`: a built node hands out
      itself, so every target that resolves yields a node. */
  method IntoStateSandwichCorrected(s: StateRef) returns (r: Outcome<Option<Node>>)
    modifies TargetFrame(s)
    ensures s.Built? ==> r == Ok(Some(s.node))
    ensures r.Ok? || r.Failed?
    ensures r.Ok? ==> r.value.Some? && r.value == Current(s)
    ensures s.Holder? && old(s.holder.state).Some? ==> unchanged(s.holder) && r.Ok?
    ensures s.Holder? && !r.Ok? ==> s.holder.state == old(s.holder.state)
    ensures s.Holder? ==> CacheGrows(old(s.holder.cache.entries), s.holder.cache.entries)
  {
    match s
    case Built(n) => r := Ok(Some(n));
    case Holder(h) =>
      var n := h.IntoStateSandwich();
      if n.Ok? {
        r := Ok(Some(n.value));
      } else {
        r := n.Propagate();
      }
  }

  /** `State::decrease_index`: only a form has a cursor to step back; on
      any other node it does nothing. */
  method DecreaseNodeIndex(n: Node, amount: nat)
    modifies FormSet(Some(n))
    ensures n.FormNode? ==> Cursor(n.form.index, n.form.goBack) == Decreased(old(Cursor(n.form.index, n.form.goBack)), amount)
    ensures n.FormNode? ==> n.form.contexts == old(n.form.contexts) && n.form.next == old(n.form.next)
  {
    if n.FormNode? {
      n.form.DecreaseIndex(amount);
    }
  }

  /** The objects a `Collect` may read and write along the parent chain:
      the forms and menus it reads, and the placeholders (with their
      caches) behind fallback options that it may resolve. */
  datatype Footprint = Footprint(forms: set<ContextState>, menus: set<OptionsState>,
                                 holders: set<StateHolder>, caches: set<Cache>)

  /** A field can be collected within `fp`. */
  ghost predicate FieldReady(x: Context, fp: Footprint)
    reads fp.menus
  {
    x.StateOptionsContext? ==>
      x.state in fp.menus &&
      (x.state.index < |x.state.options| && x.state.options[x.state.index].state.Holder? ==>
         x.state.options[x.state.index].state.holder in fp.holders &&
         x.state.options[x.state.index].state.holder.cache in fp.caches)
  }

  /** A form, its fields and all its ancestors can be collected within `fp`. */
  ghost predicate FormReady(f: ContextState, fp: Footprint)
    reads fp.forms, fp.menus
    decreases f.depth, 1
  {
    f in fp.forms &&
    (forall i :: 0 <= i < |f.contexts| ==> FieldReady(f.contexts[i], fp)) &&
    ParentReady(f.parent, f.depth, fp)
  }

  ghost predicate MenuReady(m: OptionsState, fp: Footprint)
    reads fp.forms, fp.menus
    decreases m.depth, 1
  {
    m in fp.menus && ParentReady(m.parent, m.depth, fp)
  }

  ghost predicate ParentReady(p: Option<Node>, depth: nat, fp: Footprint)
    reads fp.forms, fp.menus
    decreases depth, 0
  {
    match p
    case None => true
    case Some(FormNode(f)) => f.depth < depth && FormReady(f, fp)
    case Some(MenuNode(m)) => m.depth < depth && MenuReady(m, fp)
  }

  /** A field whose answer can be collected without loading anything: a
      plain field, or a verified-option field whose menu cursor is on an
      option and, when that is a fallback placeholder, whose placeholder
      already holds a form. */
  ghost predicate FieldCollectable(x: Context, fp: Footprint)
    reads fp.menus, fp.holders
  {
    x.StateContext? ||
    (x.state in fp.menus && x.state.index < |x.state.options| &&
     (x.state.index == |x.state.options| - 1 && x.state.options[x.state.index].state.Holder? ==>
        var h := x.state.options[x.state.index].state.holder;
        h in fp.holders && h.state.Some? && h.state.value.FormNode?))
  }

  /** Collecting from this form succeeds: every field is collectable, and
      so is every node up the parent chain. */
  ghost predicate FormCollectable(f: ContextState, fp: Footprint)
    reads fp.forms, fp.menus, fp.holders
    decreases f.depth, 1
  {
    f in fp.forms &&
    (forall i :: 0 <= i < |f.contexts| ==> FieldCollectable(f.contexts[i], fp)) &&
    ParentCollectable(f.parent, f.depth, fp)
  }

  /** Collecting from this menu succeeds: its cursor is on an option, and
      every node up the parent chain is collectable. */
  ghost predicate MenuCollectable(m: OptionsState, fp: Footprint)
    reads fp.forms, fp.menus, fp.holders
    decreases m.depth, 1
  {
    m in fp.menus && m.index < |m.options| && ParentCollectable(m.parent, m.depth, fp)
  }

  ghost predicate ParentCollectable(p: Option<Node>, depth: nat, fp: Footprint)
    reads fp.forms, fp.menus, fp.holders
    decreases depth, 0
  {
    p.Some? ==> DepthOf(p.value) < depth && NodeCollectable(p.value, fp)
  }

  ghost predicate NodeCollectable(n: Node, fp: Footprint)
    reads fp.forms, fp.menus, fp.holders
    decreases DepthOf(n), 2
  {
    match n
    case FormNode(f) => FormCollectable(f, fp)
    case MenuNode(m) => MenuCollectable(m, fp)
  }

  /** Memoised placeholders inside `fp` keep their node. */
  twostate predicate HoldersStable(fp: Footprint)
    reads fp.holders
  {
    forall h :: h in fp.holders && old(h.state).Some? ==> unchanged(h)
  }

  /** The answer recorded for a field. A plain field gives its value. A
      verified-option field gives the name of the option its menu's cursor
      rests on, except that when the cursor rests on the last option and
      that option's placeholder has produced a form with at least one field,
      it gives that form's first value. */
  ghost predicate FieldCollected(x: Context, e: ContextLikeCollection)
    reads if x.StateOptionsContext? then MenuFrame(x.state) else {}
  {
    e.name == x.name &&
    if x.StateContext? then e.value == x.value
    else x.state.index < |x.state.options| && MenuAnswered(x.state, e.value)
  }

  /** What a menu's answer depends on: the menu, and for a placeholder
      under its cursor, the placeholder and the form it produced. */
  ghost function MenuFrame(m: OptionsState): set<object>
    reads m, if m.index < |m.options| && m.options[m.index].state.Holder? then {m.options[m.index].state.holder} else {}
  {
    {m} +
    if m.index < |m.options| && m.options[m.index].state.Holder? then
      var h := m.options[m.index].state.holder;
      {h} + if h.state.Some? && h.state.value.FormNode? then {h.state.value.form} else {}
    else {}
  }

  /** The answer a menu yields for the field that opened it (see
      `FieldCollected`). */
  ghost predicate MenuAnswered(m: OptionsState, value: string)
    reads m, MenuFrame(m)
    requires m.index < |m.options|
  {
    if m.index == |m.options| - 1 && m.options[m.index].state.Holder? then
      FallbackAnswered(m.options[m.index].name, m.options[m.index].state.holder, value)
    else value == m.options[m.index].name
  }

  /** The answer behind a fallback placeholder: it has produced its node,
      and a form with at least one field gives that field's value. */
  ghost predicate FallbackAnswered(optionName: string, h: StateHolder, value: string)
    reads h, if h.state.Some? && h.state.value.FormNode? then {h.state.value.form} else {}
  {
    h.state.Some? &&
    if h.state.value.FormNode? && |h.state.value.form.contexts| > 0
    then value == h.state.value.form.contexts[0].value
    else value == optionName
  }

  /** The entry a node contributes to a collection. */
  ghost predicate EntryOf(n: Node, e: Collection)
    reads *
  {
    match n
    case FormNode(f) =>
      e.stateName == f.name && |e.contextCollections| == |f.contexts| &&
      forall i :: 0 <= i < |f.contexts| ==> FieldCollected(f.contexts[i], e.contextCollections[i])
    case MenuNode(m) =>
      m.index < |m.options| &&
      e == Collection(if m.parent.Some? then NameOf(m.parent.value) else "None",
                      [ContextLikeCollection(m.name, m.options[m.index].name)])
  }

  /** A collection lists one entry per node of the lineage, root first. */
  ghost predicate CollectedAlong(n: Node, r: seq<Collection>)
    reads *
    requires ChainOk(n)
  {
    var line := Lineage(n);
    |r| == |line| && forall k :: 0 <= k < |r| ==> EntryOf(line[k], r[k])
  }

  /** `StateContext::collect` and `StateOptionsContext::collect`. */
  method CollectField(x: Context, ghost fp: Footprint) returns (r: Outcome<ContextLikeCollection>)
    requires FieldReady(x, fp)
    modifies fp.holders, fp.caches
    ensures HoldersStable(fp)
    ensures x.StateContext? ==> r == Ok(ContextLikeCollection(x.name, x.value))
    ensures x.StateOptionsContext? && x.state.index >= |x.state.options| ==> r == Err(BadConstruction)
    ensures r.Err? ==> x.StateOptionsContext? && x.state.index >= |x.state.options|
    ensures r.Ok? ==> FieldCollected(x, r.value)
    ensures x.StateOptionsContext? && x.state.index < |x.state.options| && x.state.options[x.state.index].state.Built? ==>
              r == Ok(ContextLikeCollection(x.name, x.state.options[x.state.index].name))
    ensures x.StateOptionsContext? && x.state.index < |x.state.options| - 1 ==>
              r == Ok(ContextLikeCollection(x.name, x.state.options[x.state.index].name))
    ensures old(FieldCollectable(x, fp)) ==> r.Ok? && unchanged(fp.holders) && unchanged(fp.caches)
  {
    match x
    case StateContext(n, v) =>
      r := Ok(ContextLikeCollection(n, v));
    case StateOptionsContext(n, _, m) =>
      if m.index < |m.options| {
        var o := m.options[m.index];
        if m.index == |m.options| - 1 {
          var s := IntoStateSandwich(o.state);
          if !s.Ok? {
            return s.Propagate();
          }
          if s.value.Some? {
            match s.value.value
            case MenuNode(_) =>
              return Panicked("get_contexts is unimplemented for an options node");
            case FormNode(f) =>
              if |f.contexts| > 0 {
                return Ok(ContextLikeCollection(n, f.contexts[0].value));
              }
          }
        }
        return Ok(ContextLikeCollection(n, o.name));
      }
      r := Err(BadConstruction);
  }

  /** `collect` on a field with the corrected materialise: a fallback
      option whose target is a built form gives the answer typed into that
      form's first field; a built menu there has no fields to give and
      panics, as a materialised menu does in the source. */
  method CollectFieldCorrected(x: Context, ghost fp: Footprint) returns (r: Outcome<ContextLikeCollection>)
    requires FieldReady(x, fp)
    modifies fp.holders, fp.caches
    ensures HoldersStable(fp)
    ensures x.StateContext? ==> r == Ok(ContextLikeCollection(x.name, x.value))
    ensures x.StateOptionsContext? && x.state.index >= |x.state.options| ==> r == Err(BadConstruction)
    ensures r.Err? ==> x.StateOptionsContext? && x.state.index >= |x.state.options|
    ensures x.StateOptionsContext? && x.state.index < |x.state.options| - 1 ==>
              r == Ok(ContextLikeCollection(x.name, x.state.options[x.state.index].name))
    ensures r.Ok? && x.StateOptionsContext? && x.state.index == |x.state.options| - 1 &&
            x.state.options[x.state.index].state.Holder? ==>
              FieldCollected(x, r.value)
    ensures x.StateOptionsContext? && x.state.index == |x.state.options| - 1 &&
            x.state.options[x.state.index].state.Built? ==>
              var n := x.state.options[x.state.index].state.node;
              (n.MenuNode? ==> r.Panicked?) &&
              (n.FormNode? ==>
                 r == Ok(ContextLikeCollection(x.name, if |n.form.contexts| > 0 then n.form.contexts[0].value
                                                       else x.state.options[x.state.index].name)))
  {
    match x
    case StateContext(n, v) =>
      r := Ok(ContextLikeCollection(n, v));
    case StateOptionsContext(n, _, m) =>
      if m.index < |m.options| {
        var o := m.options[m.index];
        if m.index == |m.options| - 1 {
          var s := IntoStateSandwichCorrected(o.state);
          if !s.Ok? {
            return s.Propagate();
          }
          match s.value.value
          case MenuNode(_) =>
            return Panicked("get_contexts is unimplemented for an options node");
          case FormNode(f) =>
            if |f.contexts| > 0 {
              return Ok(ContextLikeCollection(n, f.contexts[0].value));
            }
        }
        return Ok(ContextLikeCollection(n, o.name));
      }
      r := Err(BadConstruction);
  }

  /** A menu: pick one of `options` by position or by exact name. */
  class OptionsState {
    const name: string
    const description: string
    var index: nat
    const parent: Option<Node>
    var options: seq<StateOption>
    ghost const depth: nat

    constructor (name: string, description: string, parent: Option<Node>, options: seq<StateOption>)
      ensures this.name == name && this.description == description && this.parent == parent
      ensures this.options == options && index == 0 && depth == DepthUnder(parent)
    {
      this.name := name;
      this.description := description;
      this.parent := parent;
      this.options := options;
      index := 0;
      depth := DepthUnder(parent);
    }

    /** The nested `on_input_recognized`: resolve the chosen option's
        target and report it. */
    method Recognize(i: nat) returns (r: Outcome<InputStatus>)
      requires i < |options|
      modifies TargetFrame(options[i].state)
      ensures r.Ok? || r.Failed?
      ensures r.Ok? ==> r.value == InputStatus(true, Materialised(options[i].state), options[i].submit, true)
      ensures options[i].state.Built? ==> r == Ok(InputStatus(true, None, options[i].submit, true))
      ensures options[i].state.Holder? && r.Ok? ==> options[i].state.holder.state.Some?
      ensures options[i].state.Holder? && old(options[i].state.holder.state).Some? ==>
                options[i].state.holder.state == old(options[i].state.holder.state) && r.Ok?
      ensures old(Resolvable(options[i].state)) ==> r.Ok?
    {
      var s := IntoStateSandwich(options[i].state);
      if !s.Ok? {
        return s.Propagate();
      }
      r := Ok(InputStatus(true, s.value, options[i].submit, true));
    }

    /** `on_input_recognized` with the corrected materialise: every
        recognised choice that resolves hands the host a node to move to. */
    method RecognizeCorrected(i: nat) returns (r: Outcome<InputStatus>)
      requires i < |options|
      modifies TargetFrame(options[i].state)
      ensures r.Ok? || r.Failed?
      ensures r.Ok? ==> r.value == InputStatus(true, Current(options[i].state), options[i].submit, true) &&
                        r.value.state.Some?
      ensures options[i].state.Built? ==> r == Ok(InputStatus(true, Some(options[i].state.node), options[i].submit, true))
    {
      var s := IntoStateSandwichCorrected(options[i].state);
      if !s.Ok? {
        return s.Propagate();
      }
      r := Ok(InputStatus(true, s.value, options[i].submit, true));
    }

    /** `OptionsState::input`: a line that parses as a position 1..len
        chooses that option; otherwise the first option with exactly that
        name; otherwise nothing is recognised and nothing changes. */
    method Input(input: string) returns (r: Outcome<InputStatus>)
      modifies this, OptionFrames(options)
      ensures options == old(options)
      ensures Selected(Names(options), input).None? ==>
                r == Ok(InputStatus(false, None, false, false)) && index == old(index) &&
                unchanged(OptionFrames(options))
      ensures Selected(Names(options), input).Some? ==>
                var i := Selected(Names(options), input).value;
                (forall o :: o in OptionFrames(options) && o !in TargetFrame(options[i].state) ==> unchanged(o)) &&
                (r.Ok? ==> index == i &&
                           r.value == InputStatus(true, Materialised(options[i].state), options[i].submit, true)) &&
                (r.Ok? && options[i].state.Holder? ==> options[i].state.holder.state.Some?) &&
                (!r.Ok? ==> r.Failed? && index == old(index)) &&
                (options[i].state.Built? ==> r == Ok(InputStatus(true, None, options[i].submit, true))) &&
                (options[i].state.Holder? && old(options[i].state.holder.state).Some? ==>
                   options[i].state.holder.state == old(options[i].state.holder.state) && r.Ok?) &&
                (old(Resolvable(options[i].state)) ==> r.Ok? && index == i)
    {
      var parsed := ParseU32(input);
      var chosen: Option<nat>;
      if parsed.Some? && parsed.value > 0 && parsed.value - 1 < |options| {
        chosen := Some(parsed.value - 1);
      } else {
        chosen := FindByName(input);
      }
      if chosen.None? {
        return Ok(InputStatus(false, None, false, false));
      }
      r := Recognize(chosen.value);
      if r.Ok? {
        index := chosen.value;
      }
    }

    /** The search by name: the first option whose name is exactly the
        line. */
    method FindByName(input: string) returns (r: Option<nat>)
      ensures r == FirstNamed(Names(options), input)
    {
      var i := 0;
      while i < |options|
        invariant 0 <= i <= |options|
        invariant forall j :: 0 <= j < i ==> options[j].name != input
      {
        if options[i].Input(input) {
          assert Names(options)[i] == input;
          return Some(i);
        }
        i := i + 1;
      }
      r := None;
    }

    /** `OptionsState::output`: the prompt lists every option name in
        order, and the 1-based position of each item selects it. */
    function Output(): (r: OutputStatus)
      reads this
      ensures r.output == Some(Records.Output(name, description, Names(options), ""))
      ensures !r.stateChanged && r.state.None? && !r.submit
      ensures |options| <= U32_MAX ==>
                forall i :: 0 <= i < |options| ==> Selected(r.output.value.items, Decimal(i + 1)) == Some(i)
    {
      var items := Names(options);
      assert |options| <= U32_MAX ==>
               forall i :: 0 <= i < |options| ==> Selected(items, Decimal(i + 1)) == Some(i) by {
        if |options| <= U32_MAX {
          forall i | 0 <= i < |options| ensures Selected(items, Decimal(i + 1)) == Some(i) {
            SelectByPosition(items, i);
          }
        }
      }
      OutputStatus(false, None, false, Some(Records.Output(name, description, items, "")))
    }

    /** `OptionsState::back`: hand control to the parent and step its
        cursor back by two (the menu's own field and the one before it). */
    method Back() returns (r: InputStatus)
      modifies FormSet(parent)
      ensures parent.None? ==> r == InputStatus(false, None, false, true)
      ensures parent.Some? ==> r == InputStatus(true, parent, false, true)
      ensures parent.Some? && parent.value.FormNode? ==>
                var f := parent.value.form;
                Cursor(f.index, f.goBack) == Decreased(old(Cursor(f.index, f.goBack)), 2) &&
                f.contexts == old(f.contexts) && f.next == old(f.next)
    {
      r := InputStatus(false, None, false, true);
      if parent.Some? {
        r := InputStatus(true, parent, false, true);
        DecreaseNodeIndex(parent.value, 2);
      }
    }

    /** `OptionsState::collect`: the ancestors' entries, then one entry
        naming the chosen option under the parent's name ("None" without a
        parent); a cursor off the list is a `BadConstruction`. */
    method Collect(ghost fp: Footprint) returns (r: Outcome<seq<Collection>>)
      requires ChainOk(MenuNode(this)) && MenuReady(this, fp)
      modifies fp.holders, fp.caches
      decreases depth, 2
      ensures HoldersStable(fp)
      ensures index >= |options| ==> r == Err(BadConstruction)
      ensures r.Err? ==> index >= |options|
      ensures r.Ok? ==> CollectedAlong(MenuNode(this), r.value)
      ensures old(MenuCollectable(this, fp)) ==> r.Ok?
    {
      if index < |options| {
        var entry := Collection(if parent.Some? then NameOf(parent.value) else "None",
                                [ContextLikeCollection(name, options[index].name)]);
        assert EntryOf(MenuNode(this), entry);
        if parent.Some? {
          assert MenuCollectable(this, fp) ==> ParentCollectable(parent, depth, fp);
          var up := CollectNode(parent.value, fp);
          if !up.Ok? {
            return up.Escalate().Propagate();
          }
          r := Ok(up.value + [entry]);
          assert EntryOf(MenuNode(this), entry);
          assert Lineage(MenuNode(this)) == Lineage(parent.value) + [MenuNode(this)];
        } else {
          r := Ok([entry]);
        }
        return;
      }
      r := Err(BadConstruction);
    }
  }

  /** `State::collect` on a built node. */
  method CollectNode(n: Node, ghost fp: Footprint) returns (r: Outcome<seq<Collection>>)
    requires ChainOk(n)
    requires n.FormNode? ==> FormReady(n.form, fp)
    requires n.MenuNode? ==> MenuReady(n.menu, fp)
    modifies fp.holders, fp.caches
    decreases DepthOf(n), 3
    ensures HoldersStable(fp)
    ensures r.Ok? ==> CollectedAlong(n, r.value)
    ensures old(NodeCollectable(n, fp)) ==> r.Ok?
  {
    match n
    case FormNode(f) => r := f.Collect(fp);
    case MenuNode(m) => r := m.Collect(fp);
  }

  /** A form: fields filled one answer at a time, then (when the cursor
      passes the last field) the follow-up node or a submit. */
  class ContextState {
    const name: string
    const description: string
    var index: nat
    const parent: Option<Node>
    var next: Option<StateRef>
    var contexts: seq<Context>
    const submit: bool
    var goBack: bool
    ghost const depth: nat

    constructor (name: string, description: string, parent: Option<Node>, next: Option<StateRef>,
                 contexts: seq<Context>, submit: bool)
      ensures this.name == name && this.description == description && this.parent == parent
      ensures this.next == next && this.contexts == contexts && this.submit == submit
      ensures index == 0 && !goBack && depth == DepthUnder(parent)
    {
      this.name := name;
      this.description := description;
      this.parent := parent;
      this.next := next;
      this.contexts := contexts;
      this.submit := submit;
      index := 0;
      goBack := false;
      depth := DepthUnder(parent);
    }

    /** The values of the fields, in order. */
    ghost function Values(): (vs: seq<string>)
      reads this
      ensures |vs| == |contexts|
    {
      seq(|contexts|, i requires 0 <= i < |contexts| reads this => contexts[i].value)
    }

    /** Where completing this form leads: no follow-up submits; a built
        follow-up is handed over as it is; a placeholder hands over its
        node. */
    ghost function Completed(): Completion
      reads this, if next.Some? && next.value.Holder? then {next.value.holder} else {}
    {
      match next
      case None => Completion(None, true)
      case Some(Built(n)) => Completion(Some(n), submit)
      case Some(Holder(h)) => Completion(h.state, submit)
    }

    /** The follow-up is at hand: there is none, it is built, or its
        placeholder already holds its node. Completing cannot fail then. */
    ghost predicate NextSettled()
      reads this, if next.Some? && next.value.Holder? then {next.value.holder} else {}
    {
      next.None? || next.value.Built? || next.value.holder.state.Some?
    }

    /** `on_highest_index`. */
    method OnHighestIndex() returns (r: Outcome<Completion>)
      modifies NextFrame(next)
      ensures r.Ok? || r.Failed?
      ensures next.None? || next.value.Built? ==> r == Ok(Completed())
      ensures r.Ok? ==> r.value == Completed() && r.value.state.Some? == next.Some?
      ensures next.Some? && next.value.Holder? && old(next.value.holder.state).Some? ==>
                next.value.holder.state == old(next.value.holder.state) && r.Ok?
      ensures old(NextSettled()) ==> r.Ok?
    {
      if next.Some? {
        var s := IntoStateSandwich(next.value);
        if !s.Ok? {
          return s.Propagate();
        }
        if s.value.Some? {
          r := Ok(Completion(s.value, submit));
        } else {
          r := Ok(Completion(Some(next.value.node), submit));
        }
      } else {
        r := Ok(Completion(None, true));
      }
    }

    /** `ContextState::input`: the answer lands in the field under the
        cursor, the cursor moves on by one, and reaching the end completes
        the form. Input is always recognised. */
    method Input(input: string) returns (r: Outcome<InputStatus>)
      modifies this, NextFrame(next)
      ensures next == old(next) && goBack == old(goBack)
      ensures |contexts| == old(|contexts|)
      ensures old(index) < |contexts| ==> contexts == old(contexts)[old(index) := old(contexts[index]).WithInput(input)]
      ensures old(index) >= |contexts| ==> contexts == old(contexts)
      ensures Values() == FillAt(old(Values()), old(index), input)
      ensures index == AdvanceIndex(old(index), |contexts|)
      ensures index < |contexts| ==> r == Ok(InputStatus(false, None, false, true)) && unchanged(NextFrame(next))
      ensures index >= |contexts| ==> r.Ok? || r.Failed?
      ensures index >= |contexts| && old(NextSettled()) ==> r.Ok?
      ensures index >= |contexts| && r.Ok? ==>
                r.value == InputStatus(true, Completed().state, Completed().submit, true) &&
                (next.Some? <==> r.value.state.Some?)
    {
      if index < |contexts| {
        contexts := contexts[index := contexts[index].WithInput(input)];
      }
      if index < |contexts| {
        index := index + 1;
      }
      if index >= |contexts| {
        var c := OnHighestIndex();
        if !c.Ok? {
          return c.Propagate();
        }
        return Ok(InputStatus(true, c.value.state, c.value.submit, true));
      }
      r := Ok(InputStatus(false, None, false, true));
    }

    /** `ContextState::output`: a raised `goBack` hands control to the
        parent; a cursor past the end completes the form; a verified-option
        field opens its menu and the cursor moves past it; a plain field is
        prompted for. */
    method Output() returns (r: Outcome<OutputStatus>)
      modifies this, NextFrame(next)
      ensures contexts == old(contexts) && next == old(next)
      ensures old(goBack) || old(index) < |contexts| ==> unchanged(NextFrame(next))
      ensures old(goBack) ==> !goBack && index == old(index) && r == Ok(OutputStatus(true, parent, false, None))
      ensures !old(goBack) && old(index) >= |contexts| ==>
                !goBack && index == old(index) && (r.Ok? || r.Failed?) && (old(NextSettled()) ==> r.Ok?) &&
                (r.Ok? ==> r.value == OutputStatus(true, Completed().state, Completed().submit, None))
      ensures !old(goBack) && old(index) < |contexts| && contexts[old(index)].StateOptionsContext? ==>
                !goBack && index == old(index) + 1 &&
                r == Ok(OutputStatus(true, Some(MenuNode(contexts[old(index)].state)), false, None))
      ensures !old(goBack) && old(index) < |contexts| && contexts[old(index)].StateContext? ==>
                !goBack && index == old(index) &&
                r == Ok(OutputStatus(false, None, false, Some(Records.Output(name, description, [contexts[index].name], ""))))
    {
      if goBack {
        goBack := false;
        return Ok(OutputStatus(true, parent, false, None));
      }
      if index >= |contexts| {
        var c := OnHighestIndex();
        if !c.Ok? {
          return c.Propagate();
        }
        return Ok(OutputStatus(true, c.value.state, c.value.submit, None));
      }
      var leads := contexts[index].Leads();
      if leads.Some? {
        index := index + 1;
        return Ok(OutputStatus(true, leads, false, None));
      }
      r := Ok(OutputStatus(false, None, false, Some(Records.Output(name, description, [contexts[index].name], ""))));
    }

    /** `ContextState::back`: step the cursor back; on the first field,
        hand control to the parent and step the parent's cursor back by
        one. */
    method Back() returns (r: InputStatus)
      requires parent != Some(FormNode(this))
      modifies this, FormSet(parent)
      ensures contexts == old(contexts) && next == old(next) && goBack == old(goBack)
      ensures old(index) > 0 ==> index == old(index) - 1 && r == InputStatus(false, None, false, true)
      ensures old(index) == 0 ==> index == 0
      ensures old(index) == 0 && parent.None? ==> r == InputStatus(false, None, false, true)
      ensures old(index) == 0 && parent.Some? ==> r == InputStatus(true, parent, false, true)
      ensures old(index) == 0 && parent.Some? && parent.value.FormNode? ==>
                var f := parent.value.form;
                Cursor(f.index, f.goBack) == Decreased(old(Cursor(f.index, f.goBack)), 1) &&
                f.contexts == old(f.contexts) && f.next == old(f.next)
      ensures old(index) > 0 && parent.Some? && parent.value.FormNode? ==> unchanged(parent.value.form)
    {
      r := InputStatus(false, None, false, true);
      if index == 0 && parent.Some? {
        DecreaseNodeIndex(parent.value, 1);
        r := InputStatus(true, parent, false, true);
      }
      if index > 0 {
        index := index - 1;
      }
    }

    /** `ContextState::decrease_index`, called by the menu a field opened. */
    method DecreaseIndex(amount: nat)
      modifies this
      ensures Cursor(index, goBack) == Decreased(old(Cursor(index, goBack)), amount)
      ensures contexts == old(contexts) && next == old(next)
    {
      if amount > index {
        goBack := true;
        index := 0;
      } else {
        index := index - amount;
      }
    }

    /** The forms reached from `chain[0]` by following built follow-up
        forms, ending at the first form whose follow-up is not a built form. */
    ghost predicate NextChain(chain: seq<ContextState>)
      reads set c | c in chain
    {
      |chain| >= 1 &&
      (forall i :: 0 <= i < |chain| - 1 ==> chain[i].next == Some(Built(FormNode(chain[i + 1])))) &&
      !(chain[|chain| - 1].next.Some? && chain[|chain| - 1].next.value.Built? &&
        chain[|chain| - 1].next.value.node.FormNode?)
    }

    /** `ContextState::reset_index`: rewind this form and every built
        follow-up form after it. */
    method ResetIndex(ghost chain: seq<ContextState>)
      requires NextChain(chain) && chain[0] == this
      modifies set c | c in chain
      decreases |chain|
      ensures forall c :: c in chain ==> c.index == 0
      ensures forall c :: c in chain ==> c.contexts == old(c.contexts) && c.next == old(c.next) && c.goBack == old(c.goBack)
    {
      index := 0;
      if |chain| > 1 {
        assert chain[0].next == Some(Built(FormNode(chain[1])));
      }
      if next.Some? && next.value.Built? && next.value.node.FormNode? {
        assert |chain| > 1;
        assert NextChain(chain[1..]) by {
          forall i | 0 <= i < |chain[1..]| - 1 ensures chain[1..][i].next == Some(Built(FormNode(chain[1..][i + 1]))) {
            assert chain[1..][i] == chain[i + 1];
          }
        }
        next.value.node.form.ResetIndex(chain[1..]);
      }
    }

    /** The answers of this form's fields, in field order. */
    method CollectFields(ghost fp: Footprint) returns (r: Outcome<seq<ContextLikeCollection>>)
      requires FormReady(this, fp)
      modifies fp.holders, fp.caches
      ensures HoldersStable(fp)
      ensures !r.Err?
      ensures r.Ok? ==> |r.value| == |contexts| &&
                        forall j :: 0 <= j < |contexts| ==> FieldCollected(contexts[j], r.value[j])
      ensures old(FieldsCollectable(fp)) ==> r.Ok? && unchanged(fp.holders) && unchanged(fp.caches)
    {
      var es: seq<ContextLikeCollection> := [];
      var i := 0;
      while i < |contexts|
        invariant 0 <= i <= |contexts| && |es| == i
        invariant FormReady(this, fp)
        invariant HoldersStable(fp)
        invariant forall j :: 0 <= j < i ==> FieldCollected(contexts[j], es[j])
        invariant old(FieldsCollectable(fp)) ==> unchanged(fp.holders) && unchanged(fp.caches)
      {
        assert old(FieldsCollectable(fp)) ==> FieldCollectable(contexts[i], fp);
        ghost var before := es;
        var e := CollectOneField(i, es, fp);
        if !e.Ok? {
          return e.Escalate().Propagate();
        }
        es := es + [e.value];
        i := i + 1;
      }
      r := Ok(es);
    }

    /** Collects field `i` without disturbing the answers already gathered
        for the fields before it. */
    method CollectOneField(i: nat, es: seq<ContextLikeCollection>, ghost fp: Footprint)
      returns (r: Outcome<ContextLikeCollection>)
      requires i < |contexts| && |es| == i && FormReady(this, fp)
      requires forall j :: 0 <= j < i ==> FieldCollected(contexts[j], es[j])
      modifies fp.holders, fp.caches
      ensures HoldersStable(fp)
      ensures r.Err? ==> contexts[i].StateOptionsContext?
      ensures r.Ok? ==> FieldCollected(contexts[i], r.value)
      ensures r.Ok? ==> forall j :: 0 <= j < i ==> FieldCollected(contexts[j], es[j])
      ensures old(FieldCollectable(contexts[i], fp)) ==> r.Ok? && unchanged(fp.holders) && unchanged(fp.caches)
    {
      r := CollectField(contexts[i], fp);
    }

    /** Every field of this form can be collected without loading. */
    ghost predicate FieldsCollectable(fp: Footprint)
      reads this, fp.menus, fp.holders
    {
      forall i :: 0 <= i < |contexts| ==> FieldCollectable(contexts[i], fp)
    }

    /** `ContextState::collect`: the ancestors' entries, then this form's
        entry with one answer per field in field order. */
    method Collect(ghost fp: Footprint) returns (r: Outcome<seq<Collection>>)
      requires ChainOk(FormNode(this)) && FormReady(this, fp)
      modifies fp.holders, fp.caches
      decreases depth, 2
      ensures HoldersStable(fp)
      ensures !r.Err?
      ensures r.Ok? ==> CollectedAlong(FormNode(this), r.value)
      ensures old(FormCollectable(this, fp)) ==> r.Ok?
    {
      ghost var ready := FormCollectable(this, fp);
      assert ready ==> FieldsCollectable(fp) && ParentCollectable(parent, depth, fp);
      var es := CollectFields(fp);
      if !es.Ok? {
        return es.Propagate();
      }
      assert ready ==> ParentCollectable(parent, depth, fp);
      r := CollectAbove(es.value, fp);
    }

    /** The second half of `collect`: the ancestors' entries, root first,
        then this form's entry made of the collected answers `es`. */
    method CollectAbove(es: seq<ContextLikeCollection>, ghost fp: Footprint) returns (r: Outcome<seq<Collection>>)
      requires ChainOk(FormNode(this)) && FormReady(this, fp)
      requires |es| == |contexts| && forall j :: 0 <= j < |contexts| ==> FieldCollected(contexts[j], es[j])
      modifies fp.holders, fp.caches
      decreases depth, 1
      ensures HoldersStable(fp)
      ensures !r.Err?
      ensures r.Ok? ==> CollectedAlong(FormNode(this), r.value)
      ensures old(ParentCollectable(parent, depth, fp)) ==> r.Ok?
    {
      var entry := Collection(name, es);
      assert EntryOf(FormNode(this), entry);
      if parent.Some? {
        var up := CollectNode(parent.value, fp);
        if !up.Ok? {
          return up.Escalate().Propagate();
        }
        assert EntryOf(FormNode(this), entry);
        assert Lineage(FormNode(this)) == Lineage(parent.value) + [FormNode(this)];
        r := Ok(up.value + [entry]);
      } else {
        r := Ok([entry]);
      }
    }
  }

  /** `SerDeState::into_state` (with the cache that placeholders share
      passed along): create the node under `parent`, then build its fields
      and follow-up, or its options, with the new node as their parent. */
  method IntoState(d: SerDeState, parent: Option<Node>, src: Source, cache: Cache, ghost bound: nat)
    returns (r: Outcome<Node>)
    requires StateBelow(d, src.rank, bound)
    modifies cache
    decreases bound, StateSize(d), 1
    ensures r.Ok? || r.Failed?
    ensures StateBuildable(d) ==> r.Ok?
    ensures r.Ok? ==> NameOf(r.value) == d.name && DescriptionOf(r.value) == d.description
    ensures r.Ok? ==> ParentOf(r.value) == parent && DepthOf(r.value) == DepthUnder(parent)
    ensures r.Ok? ==> (r.value.MenuNode? <==> d.kind.OptionsKind?)
    ensures r.Ok? && r.value.MenuNode? ==> BuiltMenu(r.value.menu, d.kind.options)
    ensures r.Ok? && r.value.FormNode? ==> BuiltForm(r.value.form, d.kind)
    ensures r.Ok? && r.value.MenuNode? ==> fresh(r.value.menu)
    ensures r.Ok? && r.value.FormNode? ==> fresh(r.value.form)
    ensures CacheGrows(old(cache.entries), cache.entries)
    ensures NewKeysBelow(old(cache.entries), cache.entries, src.rank, bound)
  {
    if d.kind.ContextKind? {
      var f := IntoForm(d, parent, src, cache, bound);
      if !f.Ok? {
        return f.Propagate();
      }
      r := Ok(FormNode(f.value));
    } else {
      var m := IntoMenu(d, parent, src, cache, bound);
      if !m.Ok? {
        return m.Propagate();
      }
      r := Ok(MenuNode(m.value));
    }
  }

  /** A menu was built from its option descriptions, in order, each option
      with the menu as parent and no backup. */
  ghost predicate BuiltMenu(m: OptionsState, os: seq<SerDeOption>)
    reads m
  {
    m.index == 0 && |m.options| == |os| &&
    forall i :: 0 <= i < |m.options| ==> BuiltOption(m.options[i], os[i], Some(MenuNode(m)), None)
  }

  /** A form was built from a `Context` description: its fields in order,
      with the form as their owner, then its follow-up. */
  ghost predicate BuiltForm(f: ContextState, k: StateType)
    requires k.ContextKind?
    reads f, set i, o | 0 <= i < |f.contexts| && f.contexts[i].StateOptionsContext? && o in MenuObjects(f.contexts[i].state) :: o
  {
    f.index == 0 && !f.goBack && f.submit == k.submit &&
    |f.contexts| == |k.contexts| &&
    (forall i :: 0 <= i < |f.contexts| ==> BuiltContext(f.contexts[i], k.contexts[i], FormNode(f))) &&
    (k.next.None? ==> f.next.None?) &&
    (k.next.Some? ==> f.next.Some? && BuiltTarget(f.next.value, k.next.value, Some(FormNode(f))))
  }

  /** The `Context` branch of `into_state`. */
  method IntoForm(d: SerDeState, parent: Option<Node>, src: Source, cache: Cache, ghost bound: nat)
    returns (r: Outcome<ContextState>)
    requires d.kind.ContextKind? && StateBelow(d, src.rank, bound)
    modifies cache
    decreases bound, StateSize(d), 0
    ensures r.Ok? || r.Failed?
    ensures StateBuildable(d) ==> r.Ok?
    ensures r.Ok? ==> fresh(r.value) && r.value.name == d.name && r.value.description == d.description
    ensures r.Ok? ==> r.value.parent == parent && r.value.depth == DepthUnder(parent)
    ensures r.Ok? ==> BuiltForm(r.value, d.kind)
    ensures CacheGrows(old(cache.entries), cache.entries)
    ensures NewKeysBelow(old(cache.entries), cache.entries, src.rank, bound)
  {
    var f := new ContextState(d.name, d.description, parent, None, [], d.kind.submit);
    var cs := IntoContexts(d.kind.contexts, FormNode(f), src, cache, bound);
    if !cs.Ok? {
      return cs.Propagate();
    }
    var next: Option<StateRef> := None;
    if d.kind.next.Some? {
      var n := IntoIntoState(d.kind.next.value, Some(FormNode(f)), src, cache, bound);
      if !n.Ok? {
        return n.Escalate().Propagate();
      }
      next := Some(n.value);
    }
    f.contexts, f.next := cs.value, next;
    r := Ok(f);
  }

  /** The fields of a form, built in order with the form as their owner. */
  method IntoContexts(cs: seq<SerDeContext>, owner: Node, src: Source, cache: Cache, ghost bound: nat)
    returns (r: Outcome<seq<Context>>)
    requires forall i :: 0 <= i < |cs| ==> ContextBelow(cs[i], src.rank, bound)
    modifies cache
    decreases bound, ContextsSize(cs), 1
    ensures r.Ok? || r.Failed?
    ensures (forall i :: 0 <= i < |cs| ==> ContextBuildable(cs[i])) ==> r.Ok?
    ensures r.Ok? ==> |r.value| == |cs| && forall j :: 0 <= j < |cs| ==> BuiltContext(r.value[j], cs[j], owner)
    ensures r.Ok? ==> forall j :: 0 <= j < |cs| && r.value[j].StateOptionsContext? ==> fresh(MenuObjects(r.value[j].state))
    ensures CacheGrows(old(cache.entries), cache.entries)
    ensures NewKeysBelow(old(cache.entries), cache.entries, src.rank, bound)
  {
    if cs == [] {
      return Ok([]);
    }
    var c := IntoContext(cs[0], Some(owner), src, cache, bound);
    if !c.Ok? {
      return c.Escalate().Propagate();
    }
    var rest := IntoContexts(cs[1..], owner, src, cache, bound);
    if !rest.Ok? {
      return rest;
    }
    r := Ok([c.value] + rest.value);
    assert forall j :: 0 < j < |cs| ==> r.value[j] == rest.value[j - 1] && cs[j] == cs[1..][j - 1];
  }

  /** The `Options` branch of `into_state`. */
  method IntoMenu(d: SerDeState, parent: Option<Node>, src: Source, cache: Cache, ghost bound: nat)
    returns (r: Outcome<OptionsState>)
    requires d.kind.OptionsKind? && StateBelow(d, src.rank, bound)
    modifies cache
    decreases bound, StateSize(d), 0
    ensures r.Ok? || r.Failed?
    ensures StateBuildable(d) ==> r.Ok?
    ensures r.Ok? ==> fresh(r.value) && r.value.name == d.name && r.value.description == d.description
    ensures r.Ok? ==> r.value.parent == parent && r.value.depth == DepthUnder(parent)
    ensures r.Ok? ==> BuiltMenu(r.value, d.kind.options)
    ensures CacheGrows(old(cache.entries), cache.entries)
    ensures NewKeysBelow(old(cache.entries), cache.entries, src.rank, bound)
  {
    var os := d.kind.options;
    var m := new OptionsState(d.name, d.description, parent, []);
    var built: seq<StateOption> := [];
    var i := 0;
    while i < |os|
      invariant 0 <= i <= |os| && |built| == i
      invariant m.options == [] && m.index == 0
      invariant forall j :: 0 <= j < i ==> BuiltOption(built[j], os[j], Some(MenuNode(m)), None)
      invariant CacheGrows(old(cache.entries), cache.entries)
      invariant NewKeysBelow(old(cache.entries), cache.entries, src.rank, bound)
    {
      OptionWithin(os, i);
      var o := IntoOption(os[i], Some(MenuNode(m)), None, src, cache, bound);
      if !o.Ok? {
        return o.Escalate().Propagate();
      }
      built := built + [o.value];
      i := i + 1;
    }
    m.options := built;
    r := Ok(m);
  }

  /** A target was built from its description under `parent`: an inline
      description as a node of the same kind and name, a path as a
      placeholder for that path. */
  ghost predicate BuiltTarget(s: StateRef, d: SerDeIntoState, parent: Option<Node>) {
    match d
    case Inline(st) =>
      s.Built? && NameOf(s.node) == st.name && ParentOf(s.node) == parent &&
      (s.node.MenuNode? <==> st.kind.OptionsKind?)
    case Path(p, _, w) =>
      s.Holder? && s.holder.path == p && s.holder.whichFunction == w && s.holder.parent == parent
  }

  /** An option was built from its description: its own target if it has
      one, else the backup node. */
  ghost predicate BuiltOption(o: StateOption, d: SerDeOption, parent: Option<Node>, backup: Option<Node>) {
    o.name == d.name && o.submit == SubmitFlag(d) &&
    (d.state.Some? ==> BuiltTarget(o.state, d.state.value, parent)) &&
    (d.state.None? ==> backup.Some? && o.state == Built(backup.value))
  }

  /** The objects the description of a verified-option field mentions: its
      menu and the form behind the menu's last option. */
  function MenuObjects(m: OptionsState): set<object>
    reads m
  {
    {m} + if |m.options| > 0 && m.options[|m.options| - 1].state.Built? &&
             m.options[|m.options| - 1].state.node.FormNode?
          then {m.options[|m.options| - 1].state.node.form} else {}
  }

  /** The menu generated for a verified-option field of `owner`: named
      "OPTIONS", described by the field name, child of the owner; the
      verified options in order (falling back on the owner), then one
      fallback option named `givenOption` leading to a one-field form that
      asks `givenQuestion`, belongs to the menu and continues with the
      owner. */
  ghost predicate GeneratedMenu(m: OptionsState, d: SerDeContext, owner: Node)
    requires d.kind.VerifiedOptions?
    reads MenuObjects(m)
  {
    var os := d.kind.options;
    m.name == "OPTIONS" && m.description == d.name && m.parent == Some(owner) && m.index == 0 &&
    |m.options| == |os| + 1 &&
    (forall i :: 0 <= i < |os| ==> BuiltOption(m.options[i], os[i], Some(MenuNode(m)), Some(owner))) &&
    var fallback := m.options[|os|];
    fallback.name == d.kind.givenOption && !fallback.submit &&
    fallback.state.Built? && fallback.state.node.FormNode? &&
    var f := fallback.state.node.form;
    f.name == NameOf(owner) && f.description == d.name && f.parent == Some(MenuNode(m)) &&
    f.next == Some(Built(owner)) && f.contexts == [StateContext(d.kind.givenQuestion, "")] &&
    !f.submit && f.index == 0 && !f.goBack
  }

  /** A field was built from its description. */
  ghost predicate BuiltContext(c: Context, d: SerDeContext, owner: Node)
    reads if c.StateOptionsContext? then MenuObjects(c.state) else {}
  {
    match d.kind
    case Normal => c == StateContext(d.name, InitialValue(d))
    case VerifiedOptions(_, _, _) =>
      c.StateOptionsContext? && c.name == d.name && c.value == InitialValue(d) && GeneratedMenu(c.state, d, owner)
  }

  /** `SerDeContext::into_context`. */
  method IntoContext(d: SerDeContext, parent: Option<Node>, src: Source, cache: Cache, ghost bound: nat)
    returns (r: Outcome<Context>)
    requires ContextBelow(d, src.rank, bound)
    modifies cache
    decreases bound, ContextSize(d), 0
    ensures d.kind.Normal? ==> r == Ok(StateContext(d.name, InitialValue(d)))
    ensures d.kind.VerifiedOptions? && parent.None? ==> r == Err(BadConstruction)
    ensures r.Err? ==> d.kind.VerifiedOptions? && parent.None?
    ensures !r.Panicked?
    ensures ContextBuildable(d) && parent.Some? ==> r.Ok?
    ensures r.Ok? && parent.Some? ==> BuiltContext(r.value, d, parent.value)
    ensures r.Ok? && r.value.StateOptionsContext? ==> fresh(MenuObjects(r.value.state))
    ensures CacheGrows(old(cache.entries), cache.entries)
    ensures NewKeysBelow(old(cache.entries), cache.entries, src.rank, bound)
  {
    var value := InitialValue(d);
    match d.kind
    case Normal =>
      r := Ok(StateContext(d.name, value));
    case VerifiedOptions(os, givenOption, givenQuestion) =>
      var ownerName := if parent.Some? then NameOf(parent.value) else "";
      var m := new OptionsState("OPTIONS", d.name, parent, []);
      if parent.None? {
        return Err(BadConstruction);
      }
      var f := new ContextState(ownerName, d.name, Some(MenuNode(m)), Some(Built(parent.value)),
                                [StateContext(givenQuestion, "")], false);
      var fallback := StateOption(givenOption, Built(FormNode(f)), false);
      var built: seq<StateOption> := [];
      var i := 0;
      while i < |os|
        invariant 0 <= i <= |os| && |built| == i
        invariant m.options == [] && m.index == 0
        invariant f.contexts == [StateContext(givenQuestion, "")] && f.next == Some(Built(parent.value))
        invariant f.index == 0 && !f.goBack
        invariant forall j :: 0 <= j < i ==> BuiltOption(built[j], os[j], Some(MenuNode(m)), parent)
        invariant CacheGrows(old(cache.entries), cache.entries)
        invariant NewKeysBelow(old(cache.entries), cache.entries, src.rank, bound)
      {
        OptionWithin(os, i);
        var o := IntoOption(os[i], Some(MenuNode(m)), parent, src, cache, bound);
        if !o.Ok? {
          return o.Escalate().Propagate();
        }
        built := built + [o.value];
        i := i + 1;
      }
      m.options := built + [fallback];
      r := Ok(StateOptionsContext(d.name, value, m));
  }

  /** `SerDeOption::into_option`: the option's own target, else the backup
      node, else `BadConstruction`; submit defaults to false. */
  method IntoOption(d: SerDeOption, parent: Option<Node>, backup: Option<Node>, src: Source, cache: Cache,
                    ghost bound: nat)
    returns (r: Outcome<StateOption>)
    requires OptionBelow(d, src.rank, bound)
    modifies cache
    decreases bound, OptionSize(d), 0
    ensures d.state.None? && backup.Some? ==> r == Ok(StateOption(d.name, Built(backup.value), SubmitFlag(d)))
    ensures d.state.None? && backup.None? ==> r == Err(BadConstruction)
    ensures d.state.Some? ==> r.Ok? || r.Failed?
    ensures d.state.Some? && IntoBuildable(d.state.value) ==> r.Ok?
    ensures r.Ok? ==> BuiltOption(r.value, d, parent, backup)
    ensures CacheGrows(old(cache.entries), cache.entries)
    ensures NewKeysBelow(old(cache.entries), cache.entries, src.rank, bound)
  {
    var submit := SubmitFlag(d);
    if d.state.Some? {
      var s := IntoIntoState(d.state.value, parent, src, cache, bound);
      if !s.Ok? {
        return s.Escalate().Propagate();
      }
      return Ok(StateOption(d.name, s.value, submit));
    }
    if backup.Some? {
      return Ok(StateOption(d.name, Built(backup.value), submit));
    }
    r := Err(BadConstruction);
  }

  /** `SerDeIntoState::into_into_state`: an inline description is built
      now; a path becomes a placeholder, resolved at once unless lazy. */
  method IntoIntoState(d: SerDeIntoState, parent: Option<Node>, src: Source, cache: Cache, ghost bound: nat)
    returns (r: Outcome<StateRef>)
    requires IntoBelow(d, src.rank, bound)
    modifies cache
    decreases bound, IntoSize(d), 0
    ensures r.Ok? || r.Failed?
    ensures IntoBuildable(d) ==> r.Ok?
    ensures r.Ok? ==> BuiltTarget(r.value, d, parent)
    ensures r.Ok? && d.Path? ==> fresh(r.value.holder) && r.value.holder.cache == cache && r.value.holder.howToGetString == src
    ensures d.Path? && IsLazy(d) ==> r.Ok? && r.value.holder.state == None && cache.entries == old(cache.entries)
    ensures d.Path? && !IsLazy(d) && r.Ok? ==>
              r.value.holder.state.Some? && d.path in cache.entries && cache.entries[d.path] == r.value.holder.state.value
    ensures CacheGrows(old(cache.entries), cache.entries)
    ensures NewKeysBelow(old(cache.entries), cache.entries, src.rank, bound)
  {
    match d
    case Inline(st) =>
      var n := IntoState(st, parent, src, cache, bound);
      if !n.Ok? {
        return n.Escalate().Propagate();
      }
      r := Ok(Built(n.value));
    case Path(p, lazy, w) =>
      var h := StateHolder.New(parent, p, src, w, lazy.GetOr(false), cache, bound);
      if !h.Ok? {
        return h.Propagate();
      }
      r := Ok(Holder(h.value));
  }

  /** Choosing the same placeholder-backed option twice hands over the same
      node: once the first choice has resolved the placeholder, the second
      finds it memoised and cannot fail; when the placeholder is resolvable
      the first choice succeeds too. */
  method ChooseTwice(m: OptionsState, input: string) returns (first: Outcome<InputStatus>, second: Outcome<InputStatus>)
    modifies m, OptionFrames(m.options)
    ensures m.options == old(m.options)
    ensures Selected(Names(m.options), input).Some? &&
            m.options[Selected(Names(m.options), input).value].state.Holder? && first.Ok? ==>
              second.Ok? && second.value == first.value
    ensures Selected(Names(m.options), input).Some? &&
            old(Resolvable(m.options[Selected(Names(m.options), input).value].state)) ==>
              first.Ok? && second == first
  {
    first := m.Input(input);
    second := m.Input(input);
  }

  /** Two placeholders for the same path that share a cache resolve to the
      same node: the first resolution stores its node under the path and
      the second adopts it. */
  method ResolveShared(h1: StateHolder, h2: StateHolder) returns (first: Outcome<Node>, second: Outcome<Node>)
    requires h1 != h2 && h1.path == h2.path && h1.cache == h2.cache && h1.state.None? && h2.state.None?
    modifies h1, h2, h1.cache
    ensures first.Ok? ==> second == first
    ensures h1.path in old(h1.cache.entries) || LoadsBuildable(h1.howToGetString, h1.whichFunction, h1.path) ==>
              first.Ok? && first == second && h2.state == h1.state
  {
    first := h1.IntoStateSandwich();
    second := h2.IntoStateSandwich();
  }

  /** A generated menu whose fallback option leads to a built one-field
      form, with the answer "teal" typed into that form and the cursor on
      the fallback. As written, choosing the fallback hands the host no
      node, and collecting the field gives the fallback's name "other"
      instead of the answer; with the corrected materialise the host moves
      to the form and the answer is collected. */
  method FallbackAnswerLost()
    returns (chosen: Outcome<InputStatus>, collected: Outcome<ContextLikeCollection>,
             chosenCorrected: Outcome<InputStatus>, collectedCorrected: Outcome<ContextLikeCollection>)
    ensures chosen.Ok? && chosen.value.stateChanged && chosen.value.state.None?
    ensures collected == Ok(ContextLikeCollection("colour", "other"))
    ensures chosenCorrected.Ok? && chosenCorrected.value.state.Some? && chosenCorrected.value.state.value.FormNode?
    ensures collectedCorrected == Ok(ContextLikeCollection("colour", "teal"))
  {
    var owner := new ContextState("survey", "", None, None, [], false);
    var m := new OptionsState("OPTIONS", "colour", Some(FormNode(owner)), []);
    var f := new ContextState("survey", "colour", Some(MenuNode(m)), Some(Built(FormNode(owner))),
                              [StateContext("Which colour?", "teal")], false);
    m.options := [StateOption("red", Built(FormNode(owner)), false), StateOption("other", Built(FormNode(f)), false)];
    m.index := 1;
    var x := StateOptionsContext("colour", "", m);
    var fp := Footprint({}, {m}, {}, {});
    chosen := m.Recognize(1);
    chosenCorrected := m.RecognizeCorrected(1);
    collected := CollectField(x, fp);
    collectedCorrected := CollectFieldCorrected(x, fp);
  }
}
