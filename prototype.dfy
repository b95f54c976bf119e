/** The prototype engine (src/state_like.rs, src/option_like.rs and
    src/serde_state_like.rs): the same wizard graph as the canonical engine,
    but placeholders build their node through a closure and remember only
    their own result (there is no shared cache), menu options may carry a
    closure of their own, and nodes render their prompts as text. */
module Prototype {
  import opened Records
  import opened Descriptions
  import opened Navigation

  datatype Node = MenuNode(menu: OptionsState) | FormNode(form: ContextState)

  /** A `Box<dyn IntoStateLike>`: a built node, which yields itself, or a
      placeholder, which yields the node its closure builds. */
  datatype Target = Built(node: Node) | Holder(holder: StateHolder)

  /** A field: plain text, or a field that opens the menu generated for it. */
  datatype Context =
    | StateContext(name: string, value: string)
    | StateOptionsContext(name: string, value: string, state: OptionsState)
  {
    /** Answering a field stores the raw line as its value. */
    function WithInput(input: string): (c: Context)
      ensures c.name == name && c.value == input
      ensures c.StateContext? == StateContext?
      ensures StateOptionsContext? ==> c.state == state
    {
      this.(value := input)
    }

    /** The node a field hands control to when prompted: none for a plain
        field, its menu for an options field. */
    function Leads(): (r: Option<Node>)
      ensures StateContext? <==> r.None?
      ensures StateOptionsContext? ==> r == Some(MenuNode(state))
    {
      match this
      case StateContext(_, _) => None
      case StateOptionsContext(_, _, m) => Some(MenuNode(m))
    }
  }

  /** A `Box<dyn OptionLike>`: a `StateOption` with a fixed target, or a
      `StateClosureOption`. */
  datatype Choice =
    | Fixed(name: string, state: Option<Target>, submit: bool)
    | Deferred(option: StateClosureOption)
  {
    function Name(): string {
      if Fixed? then name else option.name
    }

    function Submit(): bool {
      if Fixed? then submit else option.submit
    }

    /** `OptionLike::input`: exact, case-sensitive equality with the name. */
    predicate Input(input: string) {
      Name() == input
    }
  }

  datatype InputStatus = InputStatus(stateChanged: bool, state: Option<Node>, submit: bool, inputRecognized: bool)

  /** The prototype's output status carries the rendered prompt text. */
  datatype OutputStatus = OutputStatus(stateChanged: bool, state: Option<Node>, submit: bool, output: string)

  datatype Completion = Completion(state: Option<Node>, submit: bool)

  function NameOf(n: Node): string {
    match n
    case MenuNode(m) => m.name
    case FormNode(f) => f.name
  }

  function ParentOf(n: Node): Option<Node> {
    match n
    case MenuNode(m) => m.parent
    case FormNode(f) => f.parent
  }

  ghost function DepthOf(n: Node): nat {
    match n
    case MenuNode(m) => m.depth
    case FormNode(f) => f.depth
  }

  ghost function DepthUnder(parent: Option<Node>): nat {
    if parent.Some? then DepthOf(parent.value) + 1 else 0
  }

  /** Every node on the parent chain is strictly deeper than its parent. */
  ghost predicate ChainOk(n: Node)
    decreases DepthOf(n)
  {
    ParentOf(n).Some? ==> DepthOf(ParentOf(n).value) < DepthOf(n) && ChainOk(ParentOf(n).value)
  }

  /** The nodes from the root of the parent chain down to `n`. */
  ghost function Lineage(n: Node): (s: seq<Node>)
    requires ChainOk(n)
    decreases DepthOf(n)
    ensures |s| >= 1 && s[|s| - 1] == n
  {
    (if ParentOf(n).Some? then Lineage(ParentOf(n).value) else []) + [n]
  }

  function FormSet(n: Option<Node>): set<object> {
    if n.Some? && n.value.FormNode? then {n.value.form} else {}
  }

  function TargetFrame(t: Target): set<object> {
    if t.Holder? then {t.holder} else {}
  }

  function NextFrame(next: Option<Target>): set<object> {
    if next.Some? then TargetFrame(next.value) else {}
  }

  /** What choosing an option may write: its placeholder or its closure
      option. */
  function ChoiceFrame(c: Choice): set<object> {
    match c
    case Fixed(_, s, _) => if s.Some? then TargetFrame(s.value) else {}
    case Deferred(o) => {o}
  }

  function ChoiceFrames(cs: seq<Choice>): set<object> {
    set i, o | 0 <= i < |cs| && o in ChoiceFrame(cs[i]) :: o
  }

  /** A fixed option whose node is at hand or sure to be built: no target,
      a built node, a placeholder that holds its node, or one whose loader
      yields a description that builds without further loading. Choosing
      it cannot fail. */
  ghost predicate Settled(c: Choice)
    reads if c.Fixed? && c.state.Some? && c.state.value.Holder? then {c.state.value.holder} else {}
  {
    c.Fixed? &&
    (c.state.None? || c.state.value.Built? || c.state.value.holder.state.Some? ||
     LoadsBuildable(c.state.value.holder.howToGetString, c.state.value.holder.whichFunction, c.state.value.holder.path))
  }

  function Names(cs: seq<Choice>): (names: seq<string>)
    ensures |names| == |cs| && forall i :: 0 <= i < |cs| ==> names[i] == cs[i].Name()
  {
    seq(|cs|, i requires 0 <= i < |cs| => cs[i].Name())
  }

  /** The node a target stands for now: a built node itself, a
      placeholder its memoised node. */
  ghost function Materialised(t: Target): Option<Node>
    reads TargetFrame(t)
  {
    if t.Holder? then t.holder.state else Some(t.node)
  }

  /** A menu option whose target is produced by a closure, at most once:
      the first request runs the closure and keeps its result, later
      requests return the kept result. */
  class StateClosureOption {
    const name: string
    const closureState: () -> Option<Node>
    const submit: bool
    var stateCreated: bool
    var state: Option<Node>
    /** How many times the closure has run. */
    ghost var calls: nat

    /** The closure has run exactly once if its result is kept, never
        otherwise, and the kept result is the closure's. */
    ghost predicate Valid()
      reads this
    {
      calls == (if stateCreated then 1 else 0) &&
      (stateCreated ==> state == closureState())
    }

    constructor (name: string, closureState: () -> Option<Node>, submit: bool)
      ensures this.name == name && this.closureState == closureState && this.submit == submit
      ensures !stateCreated && state == None && Valid()
    {
      this.name := name;
      this.closureState := closureState;
      this.submit := submit;
      stateCreated := false;
      state := None;
      calls := 0;
    }

    /** `StateClosureOption::get_state`. */
    method GetState() returns (r: Option<Node>)
      requires Valid()
      modifies this
      ensures Valid() && stateCreated && calls == 1
      ensures r == closureState() && state == r
      ensures old(stateCreated) ==> unchanged(this)
    {
      if !stateCreated {
        state := closureState();
        stateCreated := true;
        calls := calls + 1;
      }
      r := state;
    }
  }

  /** The objects of a menu's choices are well formed. */
  ghost predicate ChoicesValid(cs: seq<Choice>)
    reads set i | 0 <= i < |cs| && cs[i].Deferred? :: cs[i].option
  {
    forall i :: 0 <= i < |cs| && cs[i].Deferred? ==> cs[i].option.Valid()
  }

  /** A placeholder: its closure loads the description at `path` with the
      loader at `whichFunction` and builds it under `parent`. The closure
      is represented by the values it captures. */
  class StateHolder {
    const parent: Option<Node>
    const path: string
    const howToGetString: Source
    const whichFunction: nat
    var state: Option<Node>
    /** How many times the closure has run. */
    ghost var runs: nat

    constructor Init(parent: Option<Node>, path: string, howToGetString: Source, whichFunction: nat)
      ensures this.parent == parent && this.path == path && this.howToGetString == howToGetString
      ensures this.whichFunction == whichFunction && state == None && runs == 0
    {
      this.parent := parent;
      this.path := path;
      this.howToGetString := howToGetString;
      this.whichFunction := whichFunction;
      state := None;
      runs := 0;
    }

    /** `StateHolder::new`: a placeholder that, unless `lazy`, runs its
        closure at once; a failing closure fails the creation. */
    static method New(parent: Option<Node>, path: string, howToGetString: Source, whichFunction: nat,
                      lazy: bool, ghost bound: nat)
      returns (r: Outcome<StateHolder>)
      requires !lazy ==> howToGetString.rank(path) < bound
      decreases bound, 1, 0
      ensures r.Ok? || r.Failed?
      ensures lazy ==> r.Ok? && r.value.state == None
      ensures r.Ok? ==> r.value.parent == parent && r.value.path == path && r.value.whichFunction == whichFunction
      ensures r.Ok? ==> r.value.howToGetString == howToGetString
      ensures !lazy && r.Ok? ==> r.value.state.Some? && ParentOf(r.value.state.value) == parent
      ensures !lazy && LoadsBuildable(howToGetString, whichFunction, path) ==> r.Ok?
    {
      var h := new StateHolder.Init(parent, path, howToGetString, whichFunction);
      if !lazy {
        var s := h.IntoStateLike();
        if !s.Ok? {
          return s.Propagate();
        }
      }
      r := Ok(h);
    }

    /** `into_state_like` on a placeholder: the memoised node if there is
        one, else the closure's node, memoised only when the closure
        succeeds. The closure runs exactly when nothing is memoised, so
        after its first success it never runs again. */
    method IntoStateLike() returns (r: Outcome<Node>)
      modifies this
      decreases howToGetString.rank(path) + 1, 0, 0
      ensures r.Ok? || r.Failed?
      ensures runs == old(runs) + (if old(state).None? then 1 else 0)
      ensures old(state).Some? ==> r == Ok(old(state).value) && unchanged(this)
      ensures r.Ok? ==> state == Some(r.value)
      ensures !r.Ok? ==> state == old(state)
      ensures old(state).None? && whichFunction >= |howToGetString.loaders| ==> r == Failed(FunctionNotFound)
      ensures old(state).None? && LoadsBuildable(howToGetString, whichFunction, path) ==> r.Ok?
      ensures old(state).None? && whichFunction < |howToGetString.loaders| &&
              howToGetString.loaders[whichFunction](path).LoadError? ==>
                r == Failed(LoadFailed(howToGetString.loaders[whichFunction](path).message))
      ensures old(state).None? && r.Ok? ==>
                whichFunction < |howToGetString.loaders| &&
                howToGetString.loaders[whichFunction](path).Parsed? &&
                NameOf(r.value) == howToGetString.loaders[whichFunction](path).state.name &&
                ParentOf(r.value) == parent
      ensures old(state).None? && r.Ok? ==>
                var d := howToGetString.loaders[whichFunction](path).state;
                (r.value.MenuNode? <==> d.kind.OptionsKind?) &&
                (r.value.MenuNode? ==> BuiltMenu(r.value.menu, d.kind.options)) &&
                (r.value.FormNode? ==> BuiltForm(r.value.form, d.kind))
    {
      if state.Some? {
        return Ok(state.value);
      }
      var built := RunClosure();
      runs := runs + 1;
      if !built.Ok? {
        return built;
      }
      state := Some(built.value);
      r := built;
    }

    /** The closure `serde_state_like.rs` hands to a placeholder: fetch,
        parse, then build under the captured parent; an inner construction
        error becomes an outer one. */
    method RunClosure() returns (r: Outcome<Node>)
      decreases howToGetString.rank(path) + 1, 0, -1
      ensures r.Ok? || r.Failed?
      ensures whichFunction >= |howToGetString.loaders| ==> r == Failed(FunctionNotFound)
      ensures LoadsBuildable(howToGetString, whichFunction, path) ==> r.Ok?
      ensures whichFunction < |howToGetString.loaders| && howToGetString.loaders[whichFunction](path).LoadError? ==>
                r == Failed(LoadFailed(howToGetString.loaders[whichFunction](path).message))
      ensures r.Ok? ==>
                whichFunction < |howToGetString.loaders| &&
                howToGetString.loaders[whichFunction](path).Parsed? &&
                NameOf(r.value) == howToGetString.loaders[whichFunction](path).state.name &&
                ParentOf(r.value) == parent
      ensures r.Ok? ==>
                var d := howToGetString.loaders[whichFunction](path).state;
                (r.value.MenuNode? <==> d.kind.OptionsKind?) &&
                (r.value.MenuNode? ==> BuiltMenu(r.value.menu, d.kind.options)) &&
                (r.value.FormNode? ==> BuiltForm(r.value.form, d.kind))
    {
      if whichFunction >= |howToGetString.loaders| {
        return Failed(FunctionNotFound);
      }
      var loaded := howToGetString.loaders[whichFunction](path);
      if loaded.LoadError? {
        return Failed(LoadFailed(loaded.message));
      }
      var built := IntoState(loaded.state, parent, howToGetString, howToGetString.rank(path));
      r := built.Escalate();
    }
  }

  /** `IntoStateLike::into_state_like` on a target. */
  method Resolve(t: Target) returns (r: Outcome<Option<Node>>)
    modifies TargetFrame(t)
    ensures t.Built? ==> r == Ok(Some(t.node))
    ensures r.Ok? || r.Failed?
    ensures r.Ok? ==> r.value.Some? && r.value == Materialised(t)
    ensures t.Holder? && old(t.holder.state).Some? ==> unchanged(t.holder) && r.Ok?
    ensures t.Holder? && LoadsBuildable(t.holder.howToGetString, t.holder.whichFunction, t.holder.path) ==> r.Ok?
    ensures t.Holder? && !r.Ok? ==> t.holder.state == old(t.holder.state)
  {
    match t
    case Built(n) => r := Ok(Some(n));
    case Holder(h) =>
      var s := h.IntoStateLike();
      if s.Ok? {
        r := Ok(Some(s.value));
      } else {
        r := s.Propagate();
      }
  }

  /** `OptionLike::get_state`. A fixed option yields the node its target
      stands for (resolving a placeholder on the way); a closure option
      runs its closure at most once. */
  method GetState(c: Choice) returns (r: Outcome<Option<Node>>)
    requires c.Deferred? ==> c.option.Valid()
    modifies ChoiceFrame(c)
    ensures r.Ok? || r.Failed?
    ensures c.Fixed? && c.state.None? ==> r == Ok(None)
    ensures c.Fixed? && c.state.Some? && r.Ok? ==> r.value == Materialised(c.state.value)
    ensures c.Fixed? && c.state.Some? && c.state.value.Built? ==> r == Ok(Some(c.state.value.node))
    ensures c.Fixed? && c.state.Some? && c.state.value.Holder? && old(c.state.value.holder.state).Some? ==>
              r == Ok(old(c.state.value.holder.state))
    ensures old(Settled(c)) ==> r.Ok?
    ensures c.Deferred? ==> r == Ok(c.option.closureState()) && c.option.Valid() && c.option.calls == 1
  {
    match c
    case Fixed(_, s, _) =>
      if s.None? {
        return Ok(None);
      }
      r := Resolve(s.value);
    case Deferred(o) =>
      var n := o.GetState();
      r := Ok(n);
  }

  /** `decrease_index` on a node: a form steps its cursor back; on a menu
      the source reaches `unreachable!()`. */
  method DecreaseNodeIndexAsWritten(n: Node, amount: nat) returns (r: Outcome<()>)
    modifies FormSet(Some(n))
    ensures n.MenuNode? <==> r.Panicked?
    ensures n.FormNode? ==>
              r == Ok(()) &&
              Cursor(n.form.index, n.form.goBack) == Decreased(old(Cursor(n.form.index, n.form.goBack)), amount)
  {
    match n
    case FormNode(f) =>
      f.DecreaseIndex(amount);
      r := Ok(());
    case MenuNode(_) =>
      r := Panicked("unreachable: decrease_index on an options state");
  }

  /** `decrease_index` on a node as the canonical engine does it: a form
      steps its cursor back, a menu is left alone. */
  method DecreaseNodeIndex(n: Node, amount: nat)
    modifies FormSet(Some(n))
    ensures n.FormNode? ==> Cursor(n.form.index, n.form.goBack) == Decreased(old(Cursor(n.form.index, n.form.goBack)), amount)
    ensures n.FormNode? ==> n.form.contexts == old(n.form.contexts) && n.form.next == old(n.form.next)
  {
    if n.FormNode? {
      n.form.DecreaseIndex(amount);
    }
  }

  /** The entry a node contributes to a collection. */
  ghost predicate EntryOf(n: Node, e: Collection)
    reads *
  {
    match n
    case FormNode(f) =>
      e.stateName == f.name && |e.contextCollections| == |f.contexts| &&
      forall i :: 0 <= i < |f.contexts| ==>
        e.contextCollections[i] == ContextLikeCollection(f.contexts[i].name, f.contexts[i].value)
    case MenuNode(m) =>
      m.index < |m.options| &&
      e == Collection(if m.parent.Some? then NameOf(m.parent.value) else "None",
                      [ContextLikeCollection(m.name, m.options[m.index].Name())])
  }

  /** Every menu on a lineage has its cursor on one of its options. */
  ghost predicate MenusInRange(line: seq<Node>)
    reads *
  {
    forall k :: 0 <= k < |line| && line[k].MenuNode? ==> line[k].menu.index < |line[k].menu.options|
  }

  /** A collection lists one entry per node of the lineage, root first. */
  ghost predicate CollectedAlong(n: Node, r: seq<Collection>)
    reads *
    requires ChainOk(n)
  {
    var line := Lineage(n);
    |r| == |line| && forall k :: 0 <= k < |r| ==> EntryOf(line[k], r[k])
  }

  /** `StateLike::collect` on a node. */
  method CollectNode(n: Node) returns (r: Outcome<seq<Collection>>)
    requires ChainOk(n)
    decreases DepthOf(n), 3
    ensures r.Ok? <==> MenusInRange(Lineage(n))
    ensures r.Ok? ==> CollectedAlong(n, r.value)
    ensures !r.Ok? ==> r.Err? || r == Failed(Boxed(BadConstruction))
    ensures r.Err? <==> n.MenuNode? && n.menu.index >= |n.menu.options|
  {
    match n
    case FormNode(f) => r := f.Collect();
    case MenuNode(m) => r := m.Collect();
  }

  /** The lineage of a node with a parent extends the parent's. */
  lemma LineageStep(n: Node)
    requires ChainOk(n) && ParentOf(n).Some?
    ensures ChainOk(ParentOf(n).value)
    ensures Lineage(n) == Lineage(ParentOf(n).value) + [n]
  {
  }

  /** Menus are in range along a lineage that extends a parent's exactly
      when they are in range along the parent's and at the node itself. */
  lemma InRangeStep(line: seq<Node>, n: Node)
    ensures MenusInRange(line + [n]) <==>
              MenusInRange(line) && (n.MenuNode? ==> n.menu.index < |n.menu.options|)
  {
    var s := line + [n];
    if MenusInRange(line) && (n.MenuNode? ==> n.menu.index < |n.menu.options|) {
      forall k | 0 <= k < |s| && s[k].MenuNode? ensures s[k].menu.index < |s[k].menu.options| {
        if k < |line| {
          assert s[k] == line[k];
        }
      }
    }
    if MenusInRange(s) {
      forall k | 0 <= k < |line| && line[k].MenuNode? ensures line[k].menu.index < |line[k].menu.options| {
        assert s[k] == line[k];
      }
      assert s[|line|] == n;
    }
  }

  /** A menu: choose one option by position or by exact name. */
  class OptionsState {
    const name: string
    const description: string
    var index: nat
    const parent: Option<Node>
    var options: seq<Choice>
    ghost const depth: nat

    constructor (name: string, description: string, parent: Option<Node>, options: seq<Choice>)
      ensures this.name == name && this.description == description && this.parent == parent
      ensures this.options == options && index == 0 && depth == DepthUnder(parent)
    {
      this.name := name;
      this.description := description;
      this.parent := parent;
      this.options := options;
      index := 0;
      depth := DepthUnder(parent);
    }

    /** The nested `on_input_recognized`. */
    method Recognize(i: nat) returns (r: Outcome<InputStatus>)
      requires i < |options| && ChoicesValid(options)
      modifies ChoiceFrame(options[i])
      ensures r.Ok? || r.Failed?
      ensures options[i].Fixed? && options[i].state.None? ==> r == Ok(InputStatus(true, None, options[i].Submit(), true))
      ensures options[i].Fixed? && options[i].state.Some? && r.Ok? ==>
                r.value == InputStatus(true, Materialised(options[i].state.value), options[i].Submit(), true)
      ensures options[i].Deferred? ==>
                r == Ok(InputStatus(true, options[i].option.closureState(), options[i].Submit(), true))
      ensures old(Settled(options[i])) ==> r.Ok?
      ensures ChoicesValid(options)
    {
      var s := GetState(options[i]);
      if !s.Ok? {
        return s.Propagate();
      }
      r := Ok(InputStatus(true, s.value, options[i].Submit(), true));
    }

    /** `OptionsState::input`: a line that parses as a position 1..len
        chooses that option; otherwise the first option with exactly that
        name; otherwise nothing is recognised and nothing changes. */
    method Input(input: string) returns (r: Outcome<InputStatus>)
      requires ChoicesValid(options)
      modifies this, ChoiceFrames(options)
      ensures options == old(options) && ChoicesValid(options)
      ensures Selected(Names(options), input).None? ==>
                r == Ok(InputStatus(false, None, false, false)) && index == old(index) &&
                unchanged(ChoiceFrames(options))
      ensures Selected(Names(options), input).Some? ==>
                var i := Selected(Names(options), input).value;
                (forall o :: o in ChoiceFrames(options) && o !in ChoiceFrame(options[i]) ==> unchanged(o)) &&
                (r.Ok? ==> index == i && r.value.stateChanged && r.value.inputRecognized &&
                           r.value.submit == options[i].Submit()) &&
                (!r.Ok? ==> r.Failed? && index == old(index)) &&
                (options[i].Fixed? && options[i].state.Some? && r.Ok? ==>
                   r.value.state == Materialised(options[i].state.value)) &&
                (options[i].Fixed? && options[i].state.None? ==> r.Ok? && r.value.state == None) &&
                (options[i].Deferred? ==> r.Ok? && r.value.state == options[i].option.closureState()) &&
                (old(Settled(options[i])) ==> r.Ok? && index == i)
    {
      var parsed := ParseU32(input);
      var chosen: Option<nat>;
      if parsed.Some? && parsed.value > 0 && parsed.value - 1 < |options| {
        chosen := Some(parsed.value - 1);
      } else {
        chosen := FindByName(input);
      }
      if chosen.None? {
        return Ok(InputStatus(false, None, false, false));
      }
      r := Choose(chosen.value);
    }

    /** A recognised line: the chosen option is resolved and, when that
        succeeds, the cursor moves to it; no other option is touched. */
    method Choose(i: nat) returns (r: Outcome<InputStatus>)
      requires i < |options| && ChoicesValid(options)
      modifies this, ChoiceFrame(options[i])
      ensures options == old(options) && ChoicesValid(options)
      ensures forall o :: o in ChoiceFrames(options) && o !in ChoiceFrame(options[i]) ==> unchanged(o)
      ensures r.Ok? ==> index == i && r.value.stateChanged && r.value.inputRecognized &&
                        r.value.submit == options[i].Submit()
      ensures !r.Ok? ==> r.Failed? && index == old(index)
      ensures options[i].Fixed? && options[i].state.Some? && r.Ok? ==>
                r.value.state == Materialised(options[i].state.value)
      ensures options[i].Fixed? && options[i].state.None? ==> r.Ok? && r.value.state == None
      ensures options[i].Deferred? ==> r.Ok? && r.value.state == options[i].option.closureState()
      ensures old(Settled(options[i])) ==> r.Ok? && index == i
    {
      r := Recognize(i);
      if r.Ok? {
        index := i;
      }
    }

    /** The search by name: the first option whose name is exactly the
        line. */
    method FindByName(input: string) returns (r: Option<nat>)
      ensures r == FirstNamed(Names(options), input)
    {
      var i := 0;
      while i < |options|
        invariant 0 <= i <= |options|
        invariant forall j :: 0 <= j < i ==> options[j].Name() != input
      {
        if options[i].Input(input) {
          assert Names(options)[i] == input;
          return Some(i);
        }
        i := i + 1;
      }
      r := None;
    }

    /** `OptionsState::output`: the heading, the description, then one
        numbered line per option. */
    method Output() returns (r: OutputStatus)
      ensures r == OutputStatus(false, None, false, MenuPrompt(name, description, Names(options)))
    {
      var names := Names(options);
      var lines := "";
      var i := 0;
      while i < |options|
        invariant 0 <= i <= |options|
        invariant lines == OptionLines(names[..i], 1)
      {
        OptionLinesAppend(names[..i], [names[i]], 1);
        assert names[..i + 1] == names[..i] + [names[i]];
        lines := lines + OptionLine(i + 1, options[i].Name());
        i := i + 1;
      }
      assert names[..|options|] == names;
      var text := "[" + name + "]\n" + description + "\n" + lines;
      r := OutputStatus(false, None, false, text);
    }

    /** `OptionsState::back` as written: the parent takes over and is asked
        to step its cursor back by two, which panics when the parent is
        itself a menu. */
    method BackAsWritten() returns (r: Outcome<InputStatus>)
      modifies FormSet(parent)
      ensures parent.None? ==> r == Ok(InputStatus(false, None, false, true))
      ensures parent.Some? && parent.value.MenuNode? ==> r.Panicked?
      ensures parent.Some? && parent.value.FormNode? ==>
                r == Ok(InputStatus(true, parent, false, true)) &&
                var f := parent.value.form;
                Cursor(f.index, f.goBack) == Decreased(old(Cursor(f.index, f.goBack)), 2)
    {
      r := Ok(InputStatus(false, None, false, true));
      if parent.Some? {
        var d := DecreaseNodeIndexAsWritten(parent.value, 2);
        if d.Panicked? {
          return d.Propagate();
        }
        r := Ok(InputStatus(true, parent, false, true));
      }
    }

    /** `OptionsState::back` with a menu parent left alone: backing out of
        a menu always hands control to its parent, and only a form parent
        has its cursor stepped back by two. */
    method Back() returns (r: InputStatus)
      modifies FormSet(parent)
      ensures parent.None? ==> r == InputStatus(false, None, false, true)
      ensures parent.Some? ==> r == InputStatus(true, parent, false, true)
      ensures parent.Some? && parent.value.MenuNode? ==> unchanged(parent.value.menu)
      ensures parent.Some? && parent.value.FormNode? ==>
                var f := parent.value.form;
                Cursor(f.index, f.goBack) == Decreased(old(Cursor(f.index, f.goBack)), 2) &&
                f.contexts == old(f.contexts) && f.next == old(f.next)
    {
      r := InputStatus(false, None, false, true);
      if parent.Some? {
        DecreaseNodeIndex(parent.value, 2);
        r := InputStatus(true, parent, false, true);
      }
    }

    /** `OptionsState::collect`: the ancestors' entries, then one entry
        naming the chosen option under the parent's name ("None" without a
        parent). A cursor off the list is a `BadConstruction`, which an
        ancestor's collect turns into an outer error. */
    method Collect() returns (r: Outcome<seq<Collection>>)
      requires ChainOk(MenuNode(this))
      decreases depth, 2
      ensures r.Ok? <==> MenusInRange(Lineage(MenuNode(this)))
      ensures r.Ok? ==> CollectedAlong(MenuNode(this), r.value)
      ensures r.Err? <==> index >= |options|
      ensures !r.Ok? && !r.Err? ==> r == Failed(Boxed(BadConstruction))
    {
      var line := Lineage(MenuNode(this));
      if index < |options| {
        var entry := Collection(if parent.Some? then NameOf(parent.value) else "None",
                                [ContextLikeCollection(name, options[index].Name())]);
        if parent.Some? {
          LineageStep(MenuNode(this));
          InRangeStep(Lineage(parent.value), MenuNode(this));
          var up := CollectNode(parent.value);
          assert up.Err? ==> up.error == BadConstruction;
          if !up.Ok? {
            return up.Escalate().Propagate();
          }
          r := Ok(up.value + [entry]);
        } else {
          assert line == [MenuNode(this)];
          r := Ok([entry]);
        }
        return;
      }
      assert line[|line| - 1] == MenuNode(this);
      r := Err(BadConstruction);
    }
  }

  /** A form: fields filled one answer at a time, then the follow-up. */
  class ContextState {
    const name: string
    const description: string
    var index: nat
    const parent: Option<Node>
    var next: Option<Target>
    var contexts: seq<Context>
    const submit: bool
    var goBack: bool
    ghost const depth: nat

    constructor (name: string, description: string, parent: Option<Node>, next: Option<Target>,
                 contexts: seq<Context>, submit: bool)
      ensures this.name == name && this.description == description && this.parent == parent
      ensures this.next == next && this.contexts == contexts && this.submit == submit
      ensures index == 0 && !goBack && depth == DepthUnder(parent)
    {
      this.name := name;
      this.description := description;
      this.parent := parent;
      this.next := next;
      this.contexts := contexts;
      this.submit := submit;
      index := 0;
      goBack := false;
      depth := DepthUnder(parent);
    }

    ghost function Values(): (vs: seq<string>)
      reads this
      ensures |vs| == |contexts|
    {
      seq(|contexts|, i requires 0 <= i < |contexts| reads this => contexts[i].value)
    }

    /** Where completing this form leads: no follow-up submits; otherwise
        the follow-up's node, with this form's submit flag. */
    ghost function Completed(): Completion
      reads this, NextFrame(next)
    {
      if next.None? then Completion(None, true) else Completion(Materialised(next.value), submit)
    }

    /** The follow-up is at hand: there is none, it is built, or its
        placeholder already holds its node. Completing cannot fail then. */
    ghost predicate NextSettled()
      reads this, if next.Some? && next.value.Holder? then {next.value.holder} else {}
    {
      next.None? || next.value.Built? || next.value.holder.state.Some?
    }

    /** `on_highest_index`. */
    method OnHighestIndex() returns (r: Outcome<Completion>)
      modifies NextFrame(next)
      ensures r.Ok? || r.Failed?
      ensures next.None? ==> r == Ok(Completion(None, true))
      ensures next.Some? && next.value.Built? ==> r == Ok(Completion(Some(next.value.node), submit))
      ensures r.Ok? ==> r.value == Completed() && (r.value.state.Some? <==> next.Some?)
      ensures old(NextSettled()) ==> r.Ok?
    {
      if next.Some? {
        var s := Resolve(next.value);
        if !s.Ok? {
          return s.Propagate();
        }
        r := Ok(Completion(s.value, submit));
      } else {
        r := Ok(Completion(None, true));
      }
    }

    /** `ContextState::input`: as in the canonical engine, the answer fills
        the field under the cursor, the cursor moves on by one, and
        reaching the end completes the form. */
    method Input(input: string) returns (r: Outcome<InputStatus>)
      modifies this, NextFrame(next)
      ensures next == old(next) && goBack == old(goBack)
      ensures |contexts| == old(|contexts|)
      ensures old(index) < |contexts| ==> contexts == old(contexts)[old(index) := old(contexts[index]).WithInput(input)]
      ensures old(index) >= |contexts| ==> contexts == old(contexts)
      ensures Values() == FillAt(old(Values()), old(index), input)
      ensures index == AdvanceIndex(old(index), |contexts|)
      ensures index < |contexts| ==> r == Ok(InputStatus(false, None, false, true)) && unchanged(NextFrame(next))
      ensures index >= |contexts| ==> r.Ok? || r.Failed?
      ensures index >= |contexts| && old(NextSettled()) ==> r.Ok?
      ensures index >= |contexts| && r.Ok? ==>
                r.value == InputStatus(true, Completed().state, Completed().submit, true)
    {
      if index < |contexts| {
        contexts := contexts[index := contexts[index].WithInput(input)];
      }
      if index < |contexts| {
        index := index + 1;
      }
      if index >= |contexts| {
        var c := OnHighestIndex();
        if !c.Ok? {
          return c.Propagate();
        }
        return Ok(InputStatus(true, c.value.state, c.value.submit, true));
      }
      r := Ok(InputStatus(false, None, false, true));
    }

    /** `ContextState::output`: as in the canonical engine, but a plain
        field is prompted with text: the heading, the description on the
        first field only, and the field's name. */
    method Output() returns (r: Outcome<OutputStatus>)
      modifies this, NextFrame(next)
      ensures contexts == old(contexts) && next == old(next)
      ensures old(goBack) || old(index) < |contexts| ==> unchanged(NextFrame(next))
      ensures old(goBack) ==> !goBack && index == old(index) && r == Ok(OutputStatus(true, parent, false, ""))
      ensures !old(goBack) && old(index) >= |contexts| ==>
                !goBack && index == old(index) && (r.Ok? || r.Failed?) && (old(NextSettled()) ==> r.Ok?) &&
                (r.Ok? ==> r.value == OutputStatus(true, Completed().state, Completed().submit, ""))
      ensures !old(goBack) && old(index) < |contexts| && contexts[old(index)].StateOptionsContext? ==>
                !goBack && index == old(index) + 1 &&
                r == Ok(OutputStatus(true, Some(MenuNode(contexts[old(index)].state)), false, ""))
      ensures !old(goBack) && old(index) < |contexts| && contexts[old(index)].StateContext? ==>
                !goBack && index == old(index) &&
                r == Ok(OutputStatus(false, None, false, FieldPrompt(name, description, index, Some(contexts[index].name))))
    {
      if goBack {
        goBack := false;
        return Ok(OutputStatus(true, parent, false, ""));
      }
      if index >= |contexts| {
        var c := OnHighestIndex();
        if !c.Ok? {
          return c.Propagate();
        }
        return Ok(OutputStatus(true, c.value.state, c.value.submit, ""));
      }
      var leads := contexts[index].Leads();
      if leads.Some? {
        index := index + 1;
        return Ok(OutputStatus(true, leads, false, ""));
      }
      var text := "[" + name + "]\n";
      if index == 0 {
        text := text + (description + "\n");
      }
      text := text + (contexts[index].name + "\n");
      assert text == FieldPrompt(name, description, index, Some(contexts[index].name));
      r := Ok(OutputStatus(false, None, false, text));
    }

    /** `ContextState::back`: step the cursor back; on the first field,
        hand control to the parent, whose cursor is left alone. */
    method Back() returns (r: InputStatus)
      modifies this
      ensures contexts == old(contexts) && next == old(next) && goBack == old(goBack)
      ensures old(index) > 0 ==> index == old(index) - 1 && r == InputStatus(false, None, false, true)
      ensures old(index) == 0 ==> index == 0
      ensures old(index) == 0 ==> r == InputStatus(parent.Some?, parent, false, true)
    {
      r := InputStatus(false, None, false, true);
      if index == 0 && parent.Some? {
        r := InputStatus(true, parent, false, true);
      }
      if index > 0 {
        index := index - 1;
      }
    }

    /** `ContextState::decrease_index`. */
    method DecreaseIndex(amount: nat)
      modifies this
      ensures Cursor(index, goBack) == Decreased(old(Cursor(index, goBack)), amount)
      ensures contexts == old(contexts) && next == old(next)
    {
      if amount > index {
        goBack := true;
        index := 0;
      } else {
        index := index - amount;
      }
    }

    /** This form's own entry: its name and one (name, value) pair per
        field, in field order. */
    method Entry() returns (e: Collection)
      ensures EntryOf(FormNode(this), e)
    {
      var es: seq<ContextLikeCollection> := [];
      var i := 0;
      while i < |contexts|
        invariant 0 <= i <= |contexts| && |es| == i
        invariant forall j :: 0 <= j < i ==> es[j] == ContextLikeCollection(contexts[j].name, contexts[j].value)
      {
        es := es + [ContextLikeCollection(contexts[i].name, contexts[i].value)];
        i := i + 1;
      }
      e := Collection(name, es);
    }

    /** `ContextState::collect`: the ancestors' entries, then this form's
        entry. */
    method Collect() returns (r: Outcome<seq<Collection>>)
      requires ChainOk(FormNode(this))
      decreases depth, 2
      ensures r.Ok? <==> MenusInRange(Lineage(FormNode(this)))
      ensures r.Ok? ==> CollectedAlong(FormNode(this), r.value)
      ensures !r.Ok? ==> r == Failed(Boxed(BadConstruction))
    {
      var entry := Entry();
      if parent.Some? {
        LineageStep(FormNode(this));
        InRangeStep(Lineage(parent.value), FormNode(this));
        var up := CollectNode(parent.value);
        assert up.Err? ==> up.error == BadConstruction;
        if !up.Ok? {
          return up.Escalate().Propagate();
        }
        r := Ok(up.value + [entry]);
      } else {
        assert Lineage(FormNode(this)) == [FormNode(this)];
        r := Ok([entry]);
      }
    }
  }

  /** A target was built from its description under `parent`. */
  ghost predicate BuiltTarget(t: Target, d: SerDeIntoState, parent: Option<Node>) {
    match d
    case Inline(st) =>
      t.Built? && NameOf(t.node) == st.name && ParentOf(t.node) == parent &&
      (t.node.MenuNode? <==> st.kind.OptionsKind?)
    case Path(p, _, w) =>
      t.Holder? && t.holder.path == p && t.holder.whichFunction == w && t.holder.parent == parent
  }

  /** An option was built from its description: its own target if it has
      one, else the backup node. */
  ghost predicate BuiltOption(o: Choice, d: SerDeOption, parent: Option<Node>, backup: Option<Node>) {
    o.Fixed? && o.name == d.name && o.submit == SubmitFlag(d) &&
    (d.state.Some? ==> o.state.Some? && BuiltTarget(o.state.value, d.state.value, parent)) &&
    (d.state.None? ==> backup.Some? && o.state == Some(Built(backup.value)))
  }

  function MenuObjects(m: OptionsState): set<object>
    reads m
  {
    {m} + if |m.options| > 0 && m.options[|m.options| - 1].Fixed? &&
             m.options[|m.options| - 1].state.Some? && m.options[|m.options| - 1].state.value.Built? &&
             m.options[|m.options| - 1].state.value.node.FormNode?
          then {m.options[|m.options| - 1].state.value.node.form} else {}
  }

  /** The menu generated for an options field of `owner`: named after the
      owner, described by the field name, child of the owner; the verified
      options in order (falling back on the owner), then the fallback
      option leading to a one-field form that asks `givenQuestion`,
      belongs to the menu and continues with the owner. */
  ghost predicate GeneratedMenu(m: OptionsState, d: SerDeContext, owner: Node)
    requires d.kind.VerifiedOptions?
    reads MenuObjects(m)
  {
    var os := d.kind.options;
    m.name == NameOf(owner) && m.description == d.name && m.parent == Some(owner) && m.index == 0 &&
    |m.options| == |os| + 1 &&
    (forall i :: 0 <= i < |os| ==> BuiltOption(m.options[i], os[i], Some(MenuNode(m)), Some(owner))) &&
    var fallback := m.options[|os|];
    fallback.Fixed? && fallback.name == d.kind.givenOption && !fallback.submit &&
    fallback.state.Some? && fallback.state.value.Built? && fallback.state.value.node.FormNode? &&
    var f := fallback.state.value.node.form;
    f.name == NameOf(owner) && f.description == d.name && f.parent == Some(MenuNode(m)) &&
    f.next == Some(Built(owner)) && f.contexts == [StateContext(d.kind.givenQuestion, "")] &&
    !f.submit && f.index == 0 && !f.goBack
  }

  ghost predicate BuiltContext(c: Context, d: SerDeContext, owner: Node)
    reads if c.StateOptionsContext? then MenuObjects(c.state) else {}
  {
    match d.kind
    case Normal => c == StateContext(d.name, InitialValue(d))
    case VerifiedOptions(_, _, _) =>
      c.StateOptionsContext? && c.name == d.name && c.value == InitialValue(d) && GeneratedMenu(c.state, d, owner)
  }

  ghost predicate BuiltMenu(m: OptionsState, os: seq<SerDeOption>)
    reads m
  {
    m.index == 0 && |m.options| == |os| &&
    forall i :: 0 <= i < |m.options| ==> BuiltOption(m.options[i], os[i], Some(MenuNode(m)), None)
  }

  ghost predicate BuiltForm(f: ContextState, k: StateType)
    requires k.ContextKind?
    reads f, set i, o | 0 <= i < |f.contexts| && f.contexts[i].StateOptionsContext? && o in MenuObjects(f.contexts[i].state) :: o
  {
    f.index == 0 && !f.goBack && f.submit == k.submit &&
    |f.contexts| == |k.contexts| &&
    (forall i :: 0 <= i < |f.contexts| ==> BuiltContext(f.contexts[i], k.contexts[i], FormNode(f))) &&
    (k.next.None? ==> f.next.None?) &&
    (k.next.Some? ==> f.next.Some? && BuiltTarget(f.next.value, k.next.value, Some(FormNode(f))))
  }

  /** `SerDeState::into_state_like`. */
  method IntoState(d: SerDeState, parent: Option<Node>, src: Source, ghost bound: nat)
    returns (r: Outcome<Node>)
    requires StateBelow(d, src.rank, bound)
    decreases bound, StateSize(d), 1
    ensures r.Ok? || r.Failed?
    ensures StateBuildable(d) ==> r.Ok?
    ensures r.Ok? ==> NameOf(r.value) == d.name && ParentOf(r.value) == parent && DepthOf(r.value) == DepthUnder(parent)
    ensures r.Ok? ==> (r.value.MenuNode? <==> d.kind.OptionsKind?)
    ensures r.Ok? && r.value.MenuNode? ==> BuiltMenu(r.value.menu, d.kind.options)
    ensures r.Ok? && r.value.FormNode? ==> BuiltForm(r.value.form, d.kind)
  {
    if d.kind.ContextKind? {
      var f := IntoForm(d, parent, src, bound);
      if !f.Ok? {
        return f.Propagate();
      }
      r := Ok(FormNode(f.value));
    } else {
      var m := IntoMenu(d, parent, src, bound);
      if !m.Ok? {
        return m.Propagate();
      }
      r := Ok(MenuNode(m.value));
    }
  }

  /** The `Context` branch of `into_state_like`. */
  method IntoForm(d: SerDeState, parent: Option<Node>, src: Source, ghost bound: nat)
    returns (r: Outcome<ContextState>)
    requires d.kind.ContextKind? && StateBelow(d, src.rank, bound)
    decreases bound, StateSize(d), 0
    ensures r.Ok? || r.Failed?
    ensures StateBuildable(d) ==> r.Ok?
    ensures r.Ok? ==> r.value.name == d.name && r.value.description == d.description
    ensures r.Ok? ==> r.value.parent == parent && r.value.depth == DepthUnder(parent)
    ensures r.Ok? ==> BuiltForm(r.value, d.kind)
  {
    var f := new ContextState(d.name, d.description, parent, None, [], d.kind.submit);
    var cs := IntoContexts(d.kind.contexts, FormNode(f), src, bound);
    if !cs.Ok? {
      return cs.Propagate();
    }
    var next: Option<Target> := None;
    if d.kind.next.Some? {
      var n := IntoIntoState(d.kind.next.value, Some(FormNode(f)), src, bound);
      if !n.Ok? {
        return n.Escalate().Propagate();
      }
      next := Some(n.value);
    }
    f.contexts, f.next := cs.value, next;
    r := Ok(f);
  }

  /** The fields of a form, built in order with the form as their owner. */
  method IntoContexts(cs: seq<SerDeContext>, owner: Node, src: Source, ghost bound: nat)
    returns (r: Outcome<seq<Context>>)
    requires forall i :: 0 <= i < |cs| ==> ContextBelow(cs[i], src.rank, bound)
    decreases bound, ContextsSize(cs), 1
    ensures r.Ok? || r.Failed?
    ensures (forall i :: 0 <= i < |cs| ==> ContextBuildable(cs[i])) ==> r.Ok?
    ensures r.Ok? ==> |r.value| == |cs| && forall j :: 0 <= j < |cs| ==> BuiltContext(r.value[j], cs[j], owner)
    ensures r.Ok? ==> forall j :: 0 <= j < |cs| && r.value[j].StateOptionsContext? ==> fresh(MenuObjects(r.value[j].state))
  {
    if cs == [] {
      return Ok([]);
    }
    var c := IntoContext(cs[0], Some(owner), src, bound);
    if !c.Ok? {
      return c.Escalate().Propagate();
    }
    var rest := IntoContexts(cs[1..], owner, src, bound);
    if !rest.Ok? {
      return rest;
    }
    r := Ok([c.value] + rest.value);
    assert forall j :: 0 < j < |cs| ==> r.value[j] == rest.value[j - 1] && cs[j] == cs[1..][j - 1];
  }

  /** The `Options` branch of `into_state_like`. */
  method IntoMenu(d: SerDeState, parent: Option<Node>, src: Source, ghost bound: nat)
    returns (r: Outcome<OptionsState>)
    requires d.kind.OptionsKind? && StateBelow(d, src.rank, bound)
    decreases bound, StateSize(d), 0
    ensures r.Ok? || r.Failed?
    ensures StateBuildable(d) ==> r.Ok?
    ensures r.Ok? ==> r.value.name == d.name && r.value.description == d.description
    ensures r.Ok? ==> r.value.parent == parent && r.value.depth == DepthUnder(parent)
    ensures r.Ok? ==> BuiltMenu(r.value, d.kind.options)
  {
    var os := d.kind.options;
    var m := new OptionsState(d.name, d.description, parent, []);
    var built: seq<Choice> := [];
    var i := 0;
    while i < |os|
      invariant 0 <= i <= |os| && |built| == i
      invariant m.options == [] && m.index == 0
      invariant forall j :: 0 <= j < i ==> BuiltOption(built[j], os[j], Some(MenuNode(m)), None)
    {
      OptionWithin(os, i);
      var o := IntoOption(os[i], Some(MenuNode(m)), None, src, bound);
      if !o.Ok? {
        return o.Escalate().Propagate();
      }
      built := built + [o.value];
      i := i + 1;
    }
    m.options := built;
    r := Ok(m);
  }

  /** `SerDeContext::into_context_like`. */
  method IntoContext(d: SerDeContext, parent: Option<Node>, src: Source, ghost bound: nat)
    returns (r: Outcome<Context>)
    requires ContextBelow(d, src.rank, bound)
    decreases bound, ContextSize(d), 0
    ensures d.kind.Normal? ==> r == Ok(StateContext(d.name, InitialValue(d)))
    ensures d.kind.VerifiedOptions? && parent.None? ==> r == Err(BadConstruction)
    ensures r.Err? ==> d.kind.VerifiedOptions? && parent.None?
    ensures !r.Panicked?
    ensures ContextBuildable(d) && parent.Some? ==> r.Ok?
    ensures r.Ok? && parent.Some? ==> BuiltContext(r.value, d, parent.value)
    ensures r.Ok? && r.value.StateOptionsContext? ==> fresh(MenuObjects(r.value.state))
  {
    var value := InitialValue(d);
    match d.kind
    case Normal =>
      r := Ok(StateContext(d.name, value));
    case VerifiedOptions(os, givenOption, givenQuestion) =>
      var ownerName := if parent.Some? then NameOf(parent.value) else "";
      var m := new OptionsState(ownerName, d.name, parent, []);
      if parent.None? {
        return Err(BadConstruction);
      }
      var f := new ContextState(ownerName, d.name, Some(MenuNode(m)), Some(Built(parent.value)),
                                [StateContext(givenQuestion, "")], false);
      var fallback := Fixed(givenOption, Some(Built(FormNode(f))), false);
      var built: seq<Choice> := [];
      var i := 0;
      while i < |os|
        invariant 0 <= i <= |os| && |built| == i
        invariant m.options == [] && m.index == 0
        invariant f.contexts == [StateContext(givenQuestion, "")] && f.next == Some(Built(parent.value))
        invariant f.index == 0 && !f.goBack
        invariant forall j :: 0 <= j < i ==> BuiltOption(built[j], os[j], Some(MenuNode(m)), parent)
      {
        OptionWithin(os, i);
        var o := IntoOption(os[i], Some(MenuNode(m)), parent, src, bound);
        if !o.Ok? {
          return o.Escalate().Propagate();
        }
        built := built + [o.value];
        i := i + 1;
      }
      m.options := built + [fallback];
      r := Ok(StateOptionsContext(d.name, value, m));
  }

  /** `SerDeOption::into_option_like`. */
  method IntoOption(d: SerDeOption, parent: Option<Node>, backup: Option<Node>, src: Source, ghost bound: nat)
    returns (r: Outcome<Choice>)
    requires OptionBelow(d, src.rank, bound)
    decreases bound, OptionSize(d), 0
    ensures d.state.None? && backup.Some? ==> r == Ok(Fixed(d.name, Some(Built(backup.value)), SubmitFlag(d)))
    ensures d.state.None? && backup.None? ==> r == Err(BadConstruction)
    ensures d.state.Some? ==> r.Ok? || r.Failed?
    ensures d.state.Some? && IntoBuildable(d.state.value) ==> r.Ok?
    ensures r.Ok? ==> BuiltOption(r.value, d, parent, backup)
  {
    var submit := SubmitFlag(d);
    if d.state.Some? {
      var s := IntoIntoState(d.state.value, parent, src, bound);
      if !s.Ok? {
        return s.Escalate().Propagate();
      }
      return Ok(Fixed(d.name, Some(s.value), submit));
    }
    if backup.Some? {
      return Ok(Fixed(d.name, Some(Built(backup.value)), submit));
    }
    r := Err(BadConstruction);
  }

  /** `SerDeIntoStateLike::into_into_state_like`. */
  method IntoIntoState(d: SerDeIntoState, parent: Option<Node>, src: Source, ghost bound: nat)
    returns (r: Outcome<Target>)
    requires IntoBelow(d, src.rank, bound)
    decreases bound, IntoSize(d), 0
    ensures r.Ok? || r.Failed?
    ensures IntoBuildable(d) ==> r.Ok?
    ensures r.Ok? ==> BuiltTarget(r.value, d, parent)
    ensures r.Ok? && d.Path? ==> r.value.holder.howToGetString == src
    ensures d.Path? && IsLazy(d) ==> r.Ok? && r.value.holder.state == None
    ensures d.Path? && !IsLazy(d) && r.Ok? ==> r.value.holder.state.Some?
  {
    match d
    case Inline(st) =>
      var n := IntoState(st, parent, src, bound);
      if !n.Ok? {
        return n.Escalate().Propagate();
      }
      r := Ok(Built(n.value));
    case Path(p, lazy, w) =>
      var h := StateHolder.New(parent, p, src, w, lazy.GetOr(false), bound);
      if !h.Ok? {
        return h.Propagate();
      }
      r := Ok(Holder(h.value));
  }

  /** A menu nested in a menu, as an `Options` description whose option
      carries an inline `Options` target builds it: backing out of the inner
      menu panics as written, and hands control to the outer menu once a
      menu parent is left alone. */
  method BackOutOfNestedMenu() returns (asWritten: Outcome<InputStatus>, corrected: InputStatus)
    ensures asWritten.Panicked?
    ensures corrected.stateChanged && corrected.state.Some? && corrected.state.value.MenuNode?
  {
    var outer := new OptionsState("Outer", "outer menu", None, []);
    var inner := new OptionsState("Inner", "inner menu", Some(MenuNode(outer)), []);
    outer.options := [Fixed("Inner", Some(Built(MenuNode(inner))), false)];
    asWritten := inner.BackAsWritten();
    corrected := inner.Back();
  }
}
