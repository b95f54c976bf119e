/** The declarative descriptions a wizard is built from (the serde records
    of src/serde_state.rs and src/serde_state_like.rs, which have the same
    shape), the loader table that turns a path into a description, and the
    defaulting rules the builders apply to optional fields. */
module Descriptions {
  import opened Records

  /** A node description: `Options` lists choices, `Context` lists fields,
      says whether finishing the form submits, and may name a follow-up. */
  datatype SerDeState = SerDeState(name: string, description: string, kind: StateType)

  datatype StateType =
    | OptionsKind(options: seq<SerDeOption>)
    | ContextKind(contexts: seq<SerDeContext>, submit: bool, next: Option<SerDeIntoState>)

  /** A field description: a plain text field, or a field answered by
      choosing among verified options, with a fallback option that asks
      `givenQuestion` for a free-text answer. */
  datatype SerDeContext = SerDeContext(name: string, value: Option<string>, kind: ContextType)

  datatype ContextType =
    | Normal
    | VerifiedOptions(options: seq<SerDeOption>, givenOption: string, givenQuestion: string)

  datatype SerDeOption = SerDeOption(name: string, submit: Option<bool>, state: Option<SerDeIntoState>)

  /** Where a target node comes from: written out inline, or loaded from a
      path by the loader at index `whichFunction`, eagerly unless `lazy`. */
  datatype SerDeIntoState =
    | Inline(state: SerDeState)
    | Path(path: string, lazy: Option<bool>, whichFunction: nat)

  /** A field's initial value: `unwrap_or_default`. */
  function InitialValue(d: SerDeContext): (v: string)
    ensures d.value.Some? ==> v == d.value.value
    ensures d.value.None? ==> v == ""
  {
    d.value.GetOr("")
  }

  /** An option's submit flag: `unwrap_or(false)`. */
  function SubmitFlag(d: SerDeOption): (b: bool)
    ensures b <==> d.submit == Some(true)
  {
    d.submit.GetOr(false)
  }

  /** A path reference's laziness: `unwrap_or(false)`, so eager by default. */
  predicate IsLazy(d: SerDeIntoState)
    requires d.Path?
  {
    d.lazy.GetOr(false)
  }

  /** What a loader produces for a path: a parsed description, or the
      error of fetching or parsing it. */
  datatype Loaded = Parsed(state: SerDeState) | LoadError(message: string)

  /** One entry of `how_to_get_string`, already composed with the parser. */
  type Loader = string -> Loaded

  /** Every eager path reference reachable inside a description (through
      inline targets, verified options and follow-ups) has a rank below
      `bound`. Lazy references are not followed at build time. */
  predicate StateBelow(d: SerDeState, rank: string -> nat, bound: nat) {
    match d.kind
    case OptionsKind(os) => forall i :: 0 <= i < |os| ==> OptionBelow(os[i], rank, bound)
    case ContextKind(cs, _, next) =>
      (forall i :: 0 <= i < |cs| ==> ContextBelow(cs[i], rank, bound)) &&
      (next.Some? ==> IntoBelow(next.value, rank, bound))
  }

  predicate ContextBelow(d: SerDeContext, rank: string -> nat, bound: nat) {
    match d.kind
    case Normal => true
    case VerifiedOptions(os, _, _) => forall i :: 0 <= i < |os| ==> OptionBelow(os[i], rank, bound)
  }

  predicate OptionBelow(d: SerDeOption, rank: string -> nat, bound: nat) {
    d.state.Some? ==> IntoBelow(d.state.value, rank, bound)
  }

  predicate IntoBelow(d: SerDeIntoState, rank: string -> nat, bound: nat) {
    match d
    case Inline(s) => StateBelow(s, rank, bound)
    case Path(p, lazy, _) => lazy.GetOr(false) || rank(p) < bound
  }

  /** A description builds without consulting any loader: it holds no
      eager path reference, and every option of a described menu names its
      own target (a menu has no backup to fall back on). Options of a
      verified-option field may omit their target, which then falls back
      on the field's owner. */
  predicate StateBuildable(d: SerDeState) {
    match d.kind
    case OptionsKind(os) => forall i :: 0 <= i < |os| ==> os[i].state.Some? && IntoBuildable(os[i].state.value)
    case ContextKind(cs, _, next) =>
      (forall i :: 0 <= i < |cs| ==> ContextBuildable(cs[i])) &&
      (next.Some? ==> IntoBuildable(next.value))
  }

  predicate ContextBuildable(d: SerDeContext) {
    match d.kind
    case Normal => true
    case VerifiedOptions(os, _, _) =>
      forall i :: 0 <= i < |os| ==> os[i].state.Some? ==> IntoBuildable(os[i].state.value)
  }

  predicate IntoBuildable(d: SerDeIntoState) {
    match d
    case Inline(s) => StateBuildable(s)
    case Path(_, lazy, _) => lazy.GetOr(false)
  }

  /** The loader table together with a ranking of paths under which every
      description a loader yields for `p` refers eagerly only to paths of
      smaller rank. The ranking exists exactly when no chain of eager path
      references leads back to where it started. */
  datatype LoaderTable = LoaderTable(loaders: seq<Loader>, ghost rank: string -> nat)

  ghost predicate Ranked(t: LoaderTable) {
    forall i, p :: 0 <= i < |t.loaders| && t.loaders[i](p).Parsed? ==>
      StateBelow(t.loaders[i](p).state, t.rank, t.rank(p))
  }

  type Source = t: LoaderTable | Ranked(t) ghost witness LoaderTable([], p => 0)

  /** Loader `which` of `t` exists and yields, for `p`, a description that
      builds without consulting any further loader. */
  predicate LoadsBuildable(t: LoaderTable, which: nat, p: string) {
    which < |t.loaders| && t.loaders[which](p).Parsed? && StateBuildable(t.loaders[which](p).state)
  }

  /** Structural sizes, used to show that building a description recurses
      on smaller descriptions. */
  function StateSize(d: SerDeState): (n: nat)
    ensures n >= 1
  {
    1 + match d.kind
        case OptionsKind(os) => OptionsSize(os)
        case ContextKind(cs, _, next) => ContextsSize(cs) + (if next.Some? then IntoSize(next.value) else 0)
  }

  function ContextSize(d: SerDeContext): (n: nat)
    ensures n >= 1
  {
    1 + match d.kind
        case Normal => 0
        case VerifiedOptions(os, _, _) => OptionsSize(os)
  }

  function OptionSize(d: SerDeOption): (n: nat)
    ensures n >= 1
  {
    1 + if d.state.Some? then IntoSize(d.state.value) else 0
  }

  function IntoSize(d: SerDeIntoState): (n: nat)
    ensures n >= 2
  {
    match d
    case Inline(s) => 1 + StateSize(s)
    case Path(_, _, _) => 2
  }

  function OptionsSize(os: seq<SerDeOption>): nat {
    if os == [] then 0 else OptionSize(os[0]) + OptionsSize(os[1..])
  }

  function ContextsSize(cs: seq<SerDeContext>): nat {
    if cs == [] then 0 else ContextSize(cs[0]) + ContextsSize(cs[1..])
  }

  /** Each option is smaller than the list it belongs to. */
  lemma {:induction false} OptionWithin(os: seq<SerDeOption>, i: nat)
    requires i < |os|
    ensures OptionSize(os[i]) <= OptionsSize(os)
  {
    if i > 0 {
      OptionWithin(os[1..], i - 1);
      assert os[1..][i - 1] == os[i];
    }
  }

  /** Each field is smaller than the list it belongs to. */
  lemma {:induction false} ContextWithin(cs: seq<SerDeContext>, i: nat)
    requires i < |cs|
    ensures ContextSize(cs[i]) <= ContextsSize(cs)
  {
    if i > 0 {
      ContextWithin(cs[1..], i - 1);
      assert cs[1..][i - 1] == cs[i];
    }
  }
}
