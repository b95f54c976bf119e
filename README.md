# Data-driven state machine, modelled in Dafny

The crate drives a text wizard from a declarative description. The wizard is
a graph of nodes:

- an **options menu** (`OptionsState`) lets the user pick one option, by its
  1-based position or by its exact name;
- a **form** (`ContextState`) asks its fields in order and then hands over
  to a follow-up node or submits;
- a **placeholder** (`StateHolder`) loads the description stored at a path
  and builds its node on first use. It memoises the node, and in the
  canonical engine it also shares it through a path-keyed cache.

A field may be a plain text field. It may also be a verified-options field,
which opens a generated menu of allowed answers plus one fallback option.
The fallback leads to a one-field form for a free answer. Each node keeps a
cursor that `input`, `output` and `back` move. `collect` walks the parent
chain from the root and gathers one entry per node.

The project has five modules:

- `Records` (`records.dfy`) holds the shared records: `Option`, the answer
  collections, the structural error, and `Outcome`. `Outcome` is the
  nested `Result<Result<T, StateError>, Box<dyn Error>>` together with the
  panics the engine can reach.
- `Descriptions` (`descriptions.dfy`) holds the serde description records,
  their defaults, and the loader table. Each loader is a fetch composed
  with the parser, and the table is given as a parameter.
- `Navigation` (`navigation.dfy`) holds the pure rules: `u32` parsing,
  option selection, cursor arithmetic, and the prototype's prompt text.
- `Engine` (`engine.dfy`) is the canonical engine: `src/state.rs`,
  `src/context.rs`, `src/option.rs` and `src/serde_state.rs`. These four
  files refer to each other in a cycle, so they form one module.
- `Prototype` (`prototype.dfy`) is the earlier generation: `src/state_like.rs`,
  `src/option_like.rs` and `src/serde_state_like.rs`.

Nodes are classes whose cursors and fields are updated in place.
Descriptions, statuses and collections are datatypes. Building a description
is a family of mutually recursive methods. It terminates because of a ghost
ranking of loader paths: every eager path reference inside a loaded
description has a smaller rank than the path it was loaded from.

Where the files disagree with each other or with the design, the model
follows the code:

- **Built targets in the canonical engine.** Asking a built menu or form to
  materialise itself yields nothing (`into_state_sandwich` returns `None`).
  As a result:
  - choosing an option whose target is built inline, or is the backup
    owner, reports `state_changed` with no state;
  - collecting a verified-options field whose cursor rests on the fallback
    option gives the fallback option's name, not the answer typed into
    the fallback form, unless the fallback is a placeholder.

  `Engine.OptionsState.Recognize`, `Engine.OptionsState.Input` and
  `Engine.CollectField` state exactly this, and the engine's `Input` and
  `Collect` keep this behaviour. "## Findings" records it, together with
  corrected members that hand out the built node itself.
- **`src/serde_state.rs` and the other canonical files.** This file calls
  `StateHolder::new` without the cache and passes a shared pointer where
  `StateOption` expects an owned `State`. The model passes the cache along,
  as `src/state.rs` requires, and stores the target in the option.
- **`src/serde_state_like.rs` and the prototype option.** This file hands a
  boxed `IntoStateLike` to the prototype `StateOption`. The model's fixed
  option therefore holds a target (a built node or a placeholder) and
  resolves it when chosen.
- **The generated menu's name.** The canonical builder names the generated
  menu "OPTIONS". The prototype builder names it after the owning form.

## Model

| member | source | states |
|---|---|---|
| `Records.Outcome.Escalate` | src/state.rs:612 | `??` on a nested result: an inner construction error becomes an outer one, and everything else passes unchanged |
| `Descriptions.InitialValue` | src/serde_state.rs:98 | a field starts with its described value, or the empty string |
| `Descriptions.SubmitFlag` | src/serde_state.rs:185 | an option submits exactly when its description says `true` |
| `Descriptions.OptionWithin` | src/serde_state.rs:179-201 | helper for the builder's termination, not a behaviour of the source: an option description is no larger than the list holding it |
| `Descriptions.ContextWithin` | src/serde_state.rs:93-168 | helper for the builder's termination, not a behaviour of the source: a field description is no larger than the list holding it |
| `Navigation.Decimal` | src/state_like.rs:381-383 | position rendering is a non-empty digit string without a leading zero |
| `Navigation.ParseU32` | src/state.rs:545 | a parsed line is a number that fits in 32 bits |
| `Navigation.DecimalValue` | src/state_like.rs:381-383 | reading a rendered position back gives the position |
| `Navigation.LeadingZeroValue` | src/state.rs:545 | leading zeros do not change the value a line parses to |
| `Navigation.ParseDecimal` | src/state.rs:545 | a rendered number parses back, also with a leading `+` or `0`; a number above `u32::MAX` does not parse |
| `Navigation.ParseRejectsMinus` | src/state.rs:545 | a line starting with `-` never parses |
| `Navigation.FirstNamed` | src/state.rs:555-561 | the name search finds the first option whose name equals the line, and finds none exactly when no option has that name |
| `Navigation.Selected` | src/state.rs:545-563 | a line selects the position it parses to when that is 1..len, else the first exact name match, and selects nothing exactly when neither exists |
| `Navigation.SelectByPosition` | src/state.rs:545-552 | typing the printed position of an option selects it, whatever the option names are |
| `Navigation.SelectByName` | src/state.rs:555-561 | typing an option's exact name selects the first option so named, when the name is not a valid position |
| `Navigation.AdvanceIndex` | src/state.rs:348-350 | an answer moves a form's cursor on by one up to the number of fields, and no further |
| `Navigation.FillAt` | src/state.rs:344-346 | an answer replaces the value under the cursor and leaves every other field unchanged |
| `Navigation.AnswersFillInOrder` | src/state.rs:335-358 | after k answers to a fresh form, the first k fields hold them in order, the rest keep their values, and answers past the end are dropped |
| `Navigation.CompletionOnLastAnswer` | src/state.rs:352-354 | a fresh form of n fields reaches its end exactly from the n-th answer on |
| `Navigation.Decreased` | src/state.rs:457-464 | stepping back by more than the cursor rests the cursor at 0 and raises the go-back flag; otherwise it subtracts exactly |
| `Navigation.MenuBackProtocol` | src/state.rs:582-597 | backing out of the menu opened by field k resumes the form at field k-1, or, from field 0, sends control on to the form's parent |
| `Navigation.OptionLinesAppend` | src/state_like.rs:381-383 | the numbered option lines of two runs concatenate, with numbering continuing |
| `Navigation.MenuPromptLine` | src/state_like.rs:378-390 | option i is shown on its own line numbered i+1, after the lines of the options before it |
| `Engine.Context.WithInput` | src/context.rs:14-21 | either field kind stores the raw answer and keeps its name, kind and menu |
| `Engine.Context.Leads` | src/context.rs:112-119 | a plain field leads nowhere, and a verified-options field always leads to its menu |
| `Engine.StateName` | src/state.rs:28-34 | a placeholder is named by its path, and a built node by its own name |
| `Engine.StateHolder.New` | src/state.rs:168-189 | a lazy placeholder starts unresolved and leaves the cache alone; an eager one resolves at once and is cached under its path; a failed resolution fails creation; an eager one whose path is cached, or whose loader yields a description that builds without further loading, is always created |
| `Engine.StateHolder.IntoStateSandwich` | src/state.rs:191-220 | the memoised node comes back unchanged; otherwise the cached node is adopted; otherwise an unknown loader or a failed load is an outer error that leaves the cache untouched; otherwise the loaded description is built under the placeholder's parent, with its options or fields as `IntoMenu` and `IntoForm` build them, then memoised and cached under the path, and this cannot fail when the loader yields a description that builds without further loading. Cache entries are never replaced |
| `Engine.IntoStateSandwich` | src/state.rs:141-147 | a built node yields nothing; a placeholder yields the node it now holds, and keeps a memoised one; a resolvable target (built, memoised, cached, or loading a description that builds without further loading) cannot fail |
| `Engine.DecreaseNodeIndex` | src/state.rs:95-100 | only a form steps its cursor back, and its fields and follow-up stay |
| `Engine.CollectField` | src/context.rs:129-166 | a plain field gives (name, value). A verified-options field gives the chosen option's name, or, on the last option backed by a placeholder, the first answer of the form it produced. A chosen option with a built target always gives its name. A cursor off the menu is a construction error, and the only one; a choice that is not the last option gives its name without resolving anything, and a collectable field (a plain one, or one whose fallback placeholder under the cursor already holds a form) always succeeds and touches no placeholder or cache |
| `Engine.IntoStateSandwichCorrected` | src/state.rs:473-475 | corrected materialise: a built node yields itself and a placeholder its node, so every target that resolves yields a node |
| `Engine.CollectFieldCorrected` | src/context.rs:143-153 | corrected collect: a fallback option whose target is a built form gives the answer in that form's first field; otherwise as `CollectField` |
| `Engine.OptionsState.Recognize` | src/state.rs:534-543 | choosing option i reports a change of state to the node its target materialises, with its submit flag; a resolvable target cannot fail |
| `Engine.OptionsState.RecognizeCorrected` | src/state.rs:534-543 | corrected `on_input_recognized`: every recognised choice that resolves hands over a node, a built target itself |
| `Engine.OptionsState.Input` | src/state.rs:526-564 | the option `Selected` picks becomes the cursor and is reported; an unrecognised line changes neither the cursor nor any placeholder or cache; only the chosen option's placeholder and cache may change; a failed resolution leaves the cursor alone; a memoised placeholder is not rebuilt; choosing a resolvable target cannot fail and moves the cursor to it |
| `Engine.OptionsState.FindByName` | src/state.rs:555-561 | the search by name finds exactly the first option named like the line, or none |
| `Engine.OptionsState.Output` | src/state.rs:566-580 | the prompt carries the menu's name and description and lists every option name in order, and typing the printed position of each selects that option |
| `Engine.OptionsState.Back` | src/state.rs:582-597 | control goes to the parent, and a form parent has its cursor stepped back by two |
| `Engine.OptionsState.Collect` | src/state.rs:599-621 | Ok gives the ancestors' entries root first, then (parent name or "None", chosen option); a cursor off the list, and only that, is a construction error; it succeeds whenever the cursor is on an option and every ancestor is collectable |
| `Engine.CollectNode` | src/state.rs:133-139 | collecting any built node gives one entry per node of its lineage; it succeeds whenever the node and all its ancestors are collectable |
| `Engine.ContextState.OnHighestIndex` | src/state.rs:287-305 | without a follow-up the form submits; with one, control moves to the follow-up's node with the form's submit flag |
| `Engine.ContextState.Input` | src/state.rs:335-358 | the answer fills the field under the cursor, the cursor advances by one, input is always recognised, and the form completes once the cursor reaches the end; before the end, the follow-up's placeholder and cache are untouched; completion cannot fail when there is no follow-up, a built one, or a placeholder that already holds its node |
| `Engine.ContextState.Output` | src/state.rs:360-409 | a raised go-back flag returns to the parent and clears itself; a cursor past the end completes; a verified-options field opens its menu and moves the cursor past it; a plain field is prompted by name; only completion may touch the follow-up's placeholder and cache; completion cannot fail when there is no follow-up, a built one, or a placeholder that already holds its node |
| `Engine.ContextState.Back` | src/state.rs:411-432 | the cursor steps back by one; on field 0 control goes to the parent, whose cursor steps back by one |
| `Engine.ContextState.DecreaseIndex` | src/state.rs:457-464 | the cursor moves as `Decreased` says, and the fields are kept |
| `Engine.ContextState.ResetIndex` | src/state.rs:466-471 | this form and every built follow-up form after it are rewound to field 0, and nothing else of them changes |
| `Engine.ContextState.CollectFields` | src/state.rs:435-445 | one answer per field, in field order, each as `CollectField` gives it; when every field is collectable it succeeds and touches no placeholder or cache |
| `Engine.ContextState.Collect` | src/state.rs:434-454 | the ancestors' entries, root first, then this form's entry; it succeeds whenever every field and every ancestor is collectable |
| `Engine.ContextState.CollectAbove` | src/state.rs:446-453 | the ancestors' entries, root first, then this form's entry from the collected answers; it succeeds whenever every ancestor is collectable |
| `Engine.IntoState` | src/serde_state.rs:21-63 | the built node has the description's name, description, kind and parent, and is built as `IntoForm` and `IntoMenu` say; a description with no eager path reference, whose menus give every option a target, always builds |
| `Engine.IntoForm` | src/serde_state.rs:21-63 | a form starts at field 0 with its fields built in order under it, then its follow-up under it; it always builds when no field or follow-up holds an eager path reference and every described menu gives each option a target |
| `Engine.IntoContexts` | src/serde_state.rs:32-35 | a form's fields are built in order with the form as owner; the first construction error is raised to an outer error; fields whose options hold no eager path reference, and whose inline targets build without loading, always build |
| `Engine.IntoMenu` | src/serde_state.rs:21-63 | a menu starts at option 0 with its options built in order under it, and no backup; it always builds when every option has a target and none holds an eager path reference |
| `Engine.IntoContext` | src/serde_state.rs:93-168 | a plain field keeps its name and initial value; a verified-options field gets a generated menu as described; a verified-options field without an owner is a construction error, and the only one; with an owner, it always builds when its options hold no eager path reference and their inline targets build without loading |
| `Engine.IntoOption` | src/serde_state.rs:179-201 | an option leads to its own target, else to the backup, else it is a construction error; submit defaults to false; an own target that builds without loading, as `IntoState` states, always builds |
| `Engine.IntoIntoState` | src/serde_state.rs:215-238 | an inline description is built now; a path becomes a placeholder sharing the cache, unresolved if lazy and resolved and cached otherwise; every lazy path, and an inline description that builds without loading as `IntoState` states, always build |
| `Engine.ChooseTwice` | src/state.rs:191-196 | choosing the same placeholder-backed option twice hands over the same node, and the second choice cannot fail; when the option's target is resolvable, both choices succeed with the same status |
| `Engine.ResolveShared` | src/state.rs:197-201 | two placeholders for one path sharing a cache resolve to the same node; when the path is cached or its loader yields a description that builds without further loading, both succeed and end up holding that one node |
| `Engine.FallbackAnswerLost` | src/context.rs:143-153 | on a menu whose fallback leads to a built form holding the answer "teal", choosing the fallback hands over no node and collecting gives "other"; the corrected members move to the form and collect "teal" |
| `Prototype.Context.WithInput` | src/state_like.rs:189-191 | the raw answer is stored in the field under the cursor |
| `Prototype.StateClosureOption.GetState` | src/option_like.rs:83-90 | the closure runs at most once, and every request returns its kept result |
| `Prototype.StateHolder.New` | src/state_like.rs:65-78 | a lazy placeholder starts unresolved; an eager one runs its closure at once, and a failing closure fails creation; an eager one whose loader yields a description that builds without further loading is always created |
| `Prototype.StateHolder.IntoStateLike` | src/state_like.rs:47-58 | the memoised node comes back unchanged; otherwise the closure runs, exactly once per call, and only a success is memoised, built from the loaded description as `IntoMenu` and `IntoForm` build it; an unmemoised placeholder whose loader yields a description that builds without further loading always resolves |
| `Prototype.StateHolder.RunClosure` | src/serde_state_like.rs:221-250 | the closure fails on an unknown loader or a failed load; otherwise it builds the loaded description under the captured parent, with its options or fields as `IntoMenu` and `IntoForm` build them, and it always succeeds when that description builds without further loading |
| `Prototype.Resolve` | src/state_like.rs:41-58 | a built node yields itself; a placeholder yields the node it now holds, and cannot fail when it holds one or its loader yields a description that builds without further loading |
| `Prototype.GetState` | src/option_like.rs:46-48 | a fixed option yields its target's node, or nothing; a closure option yields its closure's result; a built target or a placeholder holding its node yields that node; such a target, or a placeholder whose loader yields a description that builds without further loading, cannot fail |
| `Prototype.DecreaseNodeIndexAsWritten` | src/state_like.rs:432-434 | stepping back a menu panics, and only a menu |
| `Prototype.DecreaseNodeIndex` | src/state_like.rs:303-310 | a form steps its cursor back, and a menu is left alone |
| `Prototype.CollectNode` | src/state_like.rs:280-300 | collecting succeeds exactly when every menu on the lineage has its cursor on an option, and then lists one entry per node |
| `Prototype.LineageStep` | src/state_like.rs:293-297 | a node's lineage is its parent's lineage followed by the node |
| `Prototype.InRangeStep` | src/state_like.rs:408-430 | menus are in range along an extended lineage exactly when they are along the parent's and at the new node |
| `Prototype.OptionsState.Recognize` | src/state_like.rs:346-355 | choosing option i reports its node and submit flag; a fixed option with no target, a built target, a placeholder holding its node or one whose loader yields a description that builds without further loading cannot fail |
| `Prototype.OptionsState.Input` | src/state_like.rs:338-376 | the option `Selected` picks becomes the cursor and is reported; an unrecognised line changes neither the cursor nor any option's placeholder or closure; choosing a fixed option with no target, a built target, a placeholder holding its node or one whose loader yields a description that builds without further loading cannot fail, and moves the cursor to it |
| `Prototype.OptionsState.Choose` | src/state_like.rs:346-355 | a recognised choice moves the cursor to the option once it resolves, and touches no other option's placeholder or closure; a fixed option with no target, a built target, a placeholder holding its node or one whose loader yields a description that builds without further loading cannot fail |
| `Prototype.OptionsState.FindByName` | src/state_like.rs:366-372 | the search by name finds exactly the first option named like the line, or none |
| `Prototype.OptionsState.Output` | src/state_like.rs:378-390 | the prompt is the heading, the description, and one numbered line per option |
| `Prototype.OptionsState.BackAsWritten` | src/state_like.rs:392-406 | control goes to the parent; a form parent steps back by two; a menu parent panics |
| `Prototype.OptionsState.Back` | src/state_like.rs:392-406 | control goes to the parent; a form parent steps back by two, and a menu parent is left alone |
| `Prototype.OptionsState.Collect` | src/state_like.rs:408-430 | succeeds exactly when every menu on the lineage is in range; a cursor off this menu is an inner error, and one off an ancestor an outer one |
| `Prototype.ContextState.OnHighestIndex` | src/state_like.rs:138-151 | without a follow-up the form submits; with one, control moves to the follow-up's node; it cannot fail when there is no follow-up, a built one, or a placeholder that already holds its node |
| `Prototype.ContextState.Input` | src/state_like.rs:179-202 | the answer fills the field under the cursor, the cursor advances, and the form completes at the end; before the end, the follow-up's placeholder is untouched; completion cannot fail when there is no follow-up, a built one, or a placeholder that already holds its node |
| `Prototype.ContextState.Output` | src/state_like.rs:204-256 | as in the canonical engine, except that a plain field is prompted with the heading, the description on field 0 only, and the field's name; only completion may touch the follow-up's placeholder; completion cannot fail when there is no follow-up, a built one, or a placeholder that already holds its node |
| `Prototype.ContextState.Back` | src/state_like.rs:258-278 | the cursor steps back by one; on field 0 control goes to the parent, whose cursor is left alone |
| `Prototype.ContextState.DecreaseIndex` | src/state_like.rs:303-310 | the cursor moves as `Decreased` says |
| `Prototype.ContextState.Entry` | src/state_like.rs:281-291 | the form's entry is its name and one (name, value) pair per field, in order |
| `Prototype.ContextState.Collect` | src/state_like.rs:280-300 | the ancestors' entries then this form's entry, failing only when a menu on the lineage is out of range |
| `Prototype.IntoState` | src/serde_state_like.rs:24-69 | the built node has the description's name, kind and parent; a description with no eager path reference, whose menus give every option a target, always builds |
| `Prototype.IntoForm` | src/serde_state_like.rs:29-52 | a form starts at field 0 with its fields built in order under it, then its follow-up; it always builds when no field or follow-up holds an eager path reference and every described menu gives each option a target |
| `Prototype.IntoContexts` | src/serde_state_like.rs:40-44 | a form's fields are built in order with the form as owner; fields whose options hold no eager path reference, and whose inline targets build without loading, always build |
| `Prototype.IntoMenu` | src/serde_state_like.rs:53-66 | a menu starts at option 0 with its options built in order under it; it always builds when every option has a target and none holds an eager path reference |
| `Prototype.IntoContext` | src/serde_state_like.rs:99-176 | a plain field keeps its initial value; a verified-options field gets a generated menu named after its owner; a missing owner is a construction error; with an owner, it always builds when its options hold no eager path reference and their inline targets build without loading |
| `Prototype.IntoOption` | src/serde_state_like.rs:186-208 | an option leads to its own target, else to the backup, else it is a construction error; an own target that builds without loading, as `IntoState` states, always builds |
| `Prototype.IntoIntoState` | src/serde_state_like.rs:221-250 | an inline description is built now; a path becomes a placeholder, unresolved if lazy; every lazy path, and an inline description that builds without loading as `IntoState` states, always build |
| `Prototype.BackOutOfNestedMenu` | src/state_like.rs:432-434 | a menu nested in a menu panics on back as written, and hands control back once corrected |

## Left out

- Locks and shared ownership (`Arc`, `RwLock`, `Rc`, `RefCell`) are plain
  object references. Deadlocks and concurrent access are not modelled.
- `Engine.ContextState.Back`: requires that a form is not its own parent.
  In the source, such a form would lock itself a second time.
- Eager chains of path references that lead back to their start make the
  source recurse without end. The builder's precondition rules them out
  through the loader ranking.
- Placeholders in a parent slot, and a menu in a field's menu slot that
  is not a built menu, cannot be represented. No builder creates them. The
  `unimplemented!()` panics of the `State` dispatch on a placeholder, and
  of `get_options` or `get_contexts` on the wrong kind, therefore cannot
  happen, except for the one in `CollectField`, which is modelled.
- The prototype's `ContextLike` trait and its options field are not part
  of the available source (`src/context_like.rs` only has a plain field).
  The model stores the answer and leads to the field's menu, as the
  canonical engine does. Unlike the canonical engine, the prototype's
  options field collects (name, stored value).
- `Engine.ContextState.ResetIndex`: requires the chain of built follow-up
  forms as a ghost argument. A cycle of follow-ups, on which the source
  recurses without end, is excluded.
- `Engine.CollectNode`: success is promised only when no placeholder needs
  loading (every fallback placeholder under a cursor already holds a
  form). An unresolved fallback succeeds or fails as its loader does, and
  the collectors above it state only what an `Ok` result holds then.
- `Engine.IntoState`: success is promised only for a description that
  builds without loading. With an eager path reference, the outcome
  depends on the loader and the cache, and the builders state only what an
  `Ok` result holds then.
- `Prototype.IntoState`: the same as `Engine.IntoState`, without the cache.
- `Engine.StateHolder.IntoStateSandwich`: success is promised for a cached
  path, or for a loaded description that builds without further loading.
  A description whose own eager path references need loading resolves as
  those loads do; only the shape of an `Ok` result is stated then. The same
  holds for `Engine.StateHolder.New`, `Engine.IntoStateSandwich`,
  `Engine.OptionsState.Recognize`, `Engine.OptionsState.Input`,
  `Engine.ChooseTwice` and `Engine.ResolveShared`.
- `Prototype.StateHolder.IntoStateLike`: the same as
  `Engine.StateHolder.IntoStateSandwich`, without the cache.
- `Prototype.StateHolder.RunClosure`: the same, for the closure alone.
- `Prototype.StateHolder.New`: the same, for an eager placeholder.
- Fetching and YAML parsing (`create_from_yaml_str`, `serde_yaml`) are a
  loader oracle: a function from path to parsed description or error.
- `destroy`, `Drop`, `println!`, `dbg!`, and the `Display` impls are not
  modelled.
- The host loops (`src/main.rs`, the command-line and web examples),
  `src/lib.rs` and `src/state_creator.rs` are not modelled.
- The cursor and the positions are unbounded naturals. A `usize` overflow
  cannot happen for lists that fit in memory.

## Findings

| source | as written | input that shows it | evidently intended | confidence | as-written member | corrected member |
|---|---|---|---|---|---|---|
| src/state_like.rs:392-406 | backing out of a menu asks the parent to step its cursor back by two, and a menu parent answers with `unreachable!()` (src/state_like.rs:432-434) | an `Options` description with an option whose inline target is another `Options` description; open the inner menu and type `back` | return to the outer menu without a panic, as the canonical `State::decrease_index` (src/state.rs:95-100) ignores a menu | high, not executed | `Prototype.OptionsState.BackAsWritten` | `Prototype.OptionsState.Back` |
| src/state.rs:473-475 | a built menu or form materialises to `Ok(None)` (also src/state.rs:623-625), so `get_state` (src/option.rs:32-33) gives no node for an option with a built target, and a host loop that moves only on `Some`, as the one at examples/cli_example/src/main.rs:58-61 does, stays put | `Engine.FallbackAnswerLost`: choosing the fallback option "other", whose target is a built form, reports a change of state with no node | choosing any option moves the host to the option's node | high, not executed | `Engine.OptionsState.Recognize` | `Engine.OptionsState.RecognizeCorrected` |
| src/context.rs:143-153 | the fallback-answer branch runs only when the fallback's target materialises to a node, which a built fallback form never does, and the builder always makes the fallback a built form (src/serde_state.rs:93-168) | `Engine.FallbackAnswerLost`: with "teal" typed into the fallback form, collecting the field gives "other" | the field's answer is the text typed into the fallback form | high, not executed | `Engine.CollectField` | `Engine.CollectFieldCorrected` |
