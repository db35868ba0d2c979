/** The component base class of src/core/block.ts, without the DOM.

    Rendering is an abstract counter (`renders`): each render recomputes the
    children from the props bag, as `compile` does, and bumps the counter in
    place of producing a new root element. The private lifecycle bus
    registers exactly one listener per event (`_registerEvents`), so each of
    its emissions is modelled as a direct call of that listener. */
module Blocks {
  import opened Wrappers
  import opened Strings
  import MyDash

  /** A props value: plain data, a component instance (by its id), or an
      array of values. */
  datatype PropValue =
    | Plain(value: MyDash.JsValue)
    | Comp(id: nat)
    | List(items: seq<PropValue>)

  type Props = map<string, PropValue>

  /** `componentDidUpdate(oldProps, newProps)`: true means re-render. */
  type UpdateHook = (Props, Props) -> bool

  /** The base class's hook: always re-render. */
  function DefaultDidUpdate(before: Props, after: Props): bool
  {
    true
  }

  /** The test of `_separatePropsAndChildren`: a component, or an array whose
      every element is a component (so an empty array is a child slot). */
  predicate IsChild(v: PropValue)
  {
    v.Comp? || (v.List? && forall i :: 0 <= i < |v.items| ==> v.items[i].Comp?)
  }

  function ChildrenOf(m: Props): Props
  {
    map k | k in m && IsChild(m[k]) :: m[k]
  }

  function PlainPropsOf(m: Props): Props
  {
    map k | k in m && !IsChild(m[k]) :: m[k]
  }

  /** The two halves partition the entries by the child test, and putting
      them back together (`{...props, ...children}`) gives the input again. */
  lemma SeparateProps(m: Props)
    ensures forall k :: k in ChildrenOf(m) <==> k in m && IsChild(m[k])
    ensures forall k :: k in PlainPropsOf(m) <==> k in m && !IsChild(m[k])
    ensures ChildrenOf(m).Keys !! PlainPropsOf(m).Keys
    ensures PlainPropsOf(m) + ChildrenOf(m) == m
  {
    var u := PlainPropsOf(m) + ChildrenOf(m);
    assert forall k :: k in u <==> k in m;
    assert forall k :: k in u ==> u[k] == m[k];
  }

  /** One call of the update hook: the copy taken before a write, and the
      props after it. */
  datatype PropsChange = PropsChange(before: Props, after: Props)

  /** What the model tracks of a component between operations. */
  datatype BlockState = BlockState(props: Props, children: Props, renders: nat, updates: seq<PropsChange>)

  /** `_render`: `compile` re-derives the children from the props bag; the
      new root element is abstracted to one more render. */
  function Rendered(s: BlockState): BlockState
  {
    s.(children := ChildrenOf(s.props), renders := s.renders + 1)
  }

  /** The proxy's `set` trap: snapshot, write, then `componentDidUpdate`,
      which re-renders when the hook agrees. */
  function WriteProp(s: BlockState, key: string, value: PropValue, hook: UpdateHook): BlockState
  {
    var before := s.props;
    var after := before[key := value];
    var s' := s.(props := after, updates := s.updates + [PropsChange(before, after)]);
    if hook(before, after) then Rendered(s') else s'
  }

  /** `Object.assign(this.props, entries)`: one trap per key, in order. */
  function WriteProps(s: BlockState, entries: seq<(string, PropValue)>, hook: UpdateHook): BlockState
    decreases |entries|
  {
    if |entries| == 0 then s
    else
      var last := entries[|entries| - 1];
      WriteProp(WriteProps(s, entries[..|entries| - 1], hook), last.0, last.1, hook)
  }

  /** `setProps(next)`: `null`/`undefined` is a no-op. */
  function ApplySetProps(s: BlockState, next: Option<seq<(string, PropValue)>>, hook: UpdateHook): BlockState
  {
    if next.None? then s else WriteProps(s, next.value, hook)
  }

  /** The props bag after writing `entries` into `m`, one key at a time. */
  function Assign(m: Props, entries: seq<(string, PropValue)>): Props
    decreases |entries|
  {
    if |entries| == 0 then m
    else
      var last := entries[|entries| - 1];
      Assign(m, entries[..|entries| - 1])[last.0 := last.1]
  }

  /** How many of the writes of `entries` into `m` the hook approves. */
  function Approved(m: Props, entries: seq<(string, PropValue)>, hook: UpdateHook): nat
    decreases |entries|
  {
    if |entries| == 0 then 0
    else
      var prefix := entries[..|entries| - 1];
      var last := entries[|entries| - 1];
      var before := Assign(m, prefix);
      Approved(m, prefix, hook) + (if hook(before, before[last.0 := last.1]) then 1 else 0)
  }

  /** A write of k keys is k separate updates: the i-th update carries a copy
      of the props before the i-th key was written and the props just after;
      the props end as `Object.assign` leaves them, and the component
      re-renders once per update the hook approves. */
  lemma {:induction false} WritePropsUpdates(s: BlockState, entries: seq<(string, PropValue)>, hook: UpdateHook)
    ensures WriteProps(s, entries, hook).props == Assign(s.props, entries)
    ensures |WriteProps(s, entries, hook).updates| == |s.updates| + |entries|
    ensures WriteProps(s, entries, hook).updates[..|s.updates|] == s.updates
    ensures forall i :: 0 <= i < |entries| ==>
      WriteProps(s, entries, hook).updates[|s.updates| + i]
        == PropsChange(Assign(s.props, entries[..i]), Assign(s.props, entries[..i + 1]))
    ensures WriteProps(s, entries, hook).renders == s.renders + Approved(s.props, entries, hook)
    decreases |entries|
  {
    if |entries| > 0 {
      var n := |entries| - 1;
      var prefix := entries[..n];
      WritePropsUpdates(s, prefix, hook);
      var mid := WriteProps(s, prefix, hook);
      var r := WriteProps(s, entries, hook);
      assert r.updates == mid.updates + [PropsChange(mid.props, mid.props[entries[n].0 := entries[n].1])];
      forall i | 0 <= i < |entries|
        ensures r.updates[|s.updates| + i] == PropsChange(Assign(s.props, entries[..i]), Assign(s.props, entries[..i + 1]))
      {
        if i < n {
          assert entries[..i] == prefix[..i] && entries[..i + 1] == prefix[..i + 1];
        } else {
          assert entries[..i] == prefix;
          assert entries[..i + 1] == entries;
        }
      }
    }
  }

  /** After `Object.assign`, a key no entry writes is untouched. */
  lemma {:induction false} AssignUntouched(m: Props, entries: seq<(string, PropValue)>, key: string)
    requires forall i :: 0 <= i < |entries| ==> entries[i].0 != key
    ensures key in Assign(m, entries) <==> key in m
    ensures key in m ==> Assign(m, entries)[key] == m[key]
    decreases |entries|
  {
    if |entries| > 0 {
      AssignUntouched(m, entries[..|entries| - 1], key);
    }
  }

  /** After `Object.assign`, a written key holds the value of its last write. */
  lemma {:induction false} AssignLastWins(m: Props, entries: seq<(string, PropValue)>, key: string, i: nat)
    requires i < |entries| && entries[i].0 == key
    requires forall j :: i < j < |entries| ==> entries[j].0 != key
    ensures key in Assign(m, entries) && Assign(m, entries)[key] == entries[i].1
    decreases |entries|
  {
    var n := |entries| - 1;
    if i < n {
      AssignLastWins(m, entries[..n], key, i);
    }
  }

  /** With the default hook every write re-renders. */
  lemma {:induction false} DefaultHookAlwaysRenders(m: Props, entries: seq<(string, PropValue)>)
    ensures Approved(m, entries, DefaultDidUpdate) == |entries|
    decreases |entries|
  {
    if |entries| > 0 {
      DefaultHookAlwaysRenders(m, entries[..|entries| - 1]);
    }
  }

  /** A hook that always declines leaves the render count and the children
      as they were, however many keys are written. */
  lemma {:induction false} DecliningHookNeverRenders(s: BlockState, entries: seq<(string, PropValue)>, hook: UpdateHook)
    requires forall a, b :: !hook(a, b)
    ensures WriteProps(s, entries, hook).renders == s.renders
    ensures WriteProps(s, entries, hook).children == s.children
    decreases |entries|
  {
    if |entries| > 0 {
      DecliningHookNeverRenders(s, entries[..|entries| - 1], hook);
    }
  }

  /** The error the `deleteProperty` trap throws. */
  const NoAccess := "No access"

  class Block {
    const id: nat
    const didUpdate: UpdateHook
    var props: Props
    var children: Props
    var renders: nat
    var inits: nat
    var mounts: nat
    var updates: seq<PropsChange>

    function Snapshot(): BlockState
      reads this
    {
      BlockState(props, children, renders, updates)
    }

    /** The constructor: separate, keep the children, put props and children
        together into the bag, then `init` once and render once. */
    constructor (id: nat, propsWithChildren: Props, didUpdate: UpdateHook)
      ensures this.id == id && this.didUpdate == didUpdate
      ensures props == propsWithChildren && children == ChildrenOf(propsWithChildren)
      ensures inits == 1 && renders == 1 && mounts == 0 && updates == []
    {
      this.id := id;
      this.didUpdate := didUpdate;
      var separated := ChildrenOf(propsWithChildren);
      SeparateProps(propsWithChildren);
      children := separated;
      props := PlainPropsOf(propsWithChildren) + separated;
      renders := 0;
      inits := 0;
      mounts := 0;
      updates := [];
      new;
      Init();
    }

    /** `_init`: the `init` hook, then the render event. */
    method Init()
      modifies this
      ensures inits == old(inits) + 1 && mounts == old(mounts)
      ensures Snapshot() == Rendered(old(Snapshot()))
    {
      inits := inits + 1;
      Render();
    }

    /** `_render`. */
    method Render()
      modifies this
      ensures Snapshot() == Rendered(old(Snapshot()))
      ensures inits == old(inits) && mounts == old(mounts)
    {
      children := ChildrenOf(props);
      renders := renders + 1;
    }

    /** `_componentDidUpdate`: ask the hook, render if it says so. */
    method ComponentDidUpdate(before: Props, after: Props)
      modifies this
      ensures updates == old(updates) + [PropsChange(before, after)]
      ensures props == old(props) && inits == old(inits) && mounts == old(mounts)
      ensures didUpdate(before, after) ==> children == ChildrenOf(props) && renders == old(renders) + 1
      ensures !didUpdate(before, after) ==> children == old(children) && renders == old(renders)
    {
      updates := updates + [PropsChange(before, after)];
      if didUpdate(before, after) {
        Render();
      }
    }

    /** The `set` trap of the props proxy. */
    method SetProp(key: string, value: PropValue)
      modifies this
      ensures Snapshot() == WriteProp(old(Snapshot()), key, value, didUpdate)
      ensures inits == old(inits) && mounts == old(mounts)
    {
      var before := props;
      props := props[key := value];
      ComponentDidUpdate(before, props);
    }

    /** The `deleteProperty` trap: always throws, nothing changes. */
    method DeleteProp(key: string) returns (outcome: Outcome<string>)
      ensures outcome == Fail(NoAccess)
    {
      outcome := Fail(NoAccess);
    }

    /** `setProps`. */
    method SetProps(next: Option<seq<(string, PropValue)>>)
      modifies this
      ensures Snapshot() == ApplySetProps(old(Snapshot()), next, didUpdate)
      ensures inits == old(inits) && mounts == old(mounts)
    {
      if next.None? {
        return;
      }
      var entries := next.value;
      var i := 0;
      while i < |entries|
        invariant 0 <= i <= |entries|
        invariant Snapshot() == WriteProps(old(Snapshot()), entries[..i], didUpdate)
        invariant inits == old(inits) && mounts == old(mounts)
      {
        assert entries[..i + 1][..i] == entries[..i];
        SetProp(entries[i].0, entries[i].1);
        i := i + 1;
      }
      assert entries[..i] == entries;
    }

    /** The mount event: the `componentDidMount` hook runs once. A run of
        `DispatchComponentDidMount` on a tree is one such call per id of
        `MountOrder`, in that order. */
    method ComponentDidMount()
      modifies this
      ensures mounts == old(mounts) + 1
      ensures Snapshot() == old(Snapshot()) && inits == old(inits)
    {
      mounts := mounts + 1;
    }
  }

  /** A component tree as `dispatchComponentDidMount` walks it: a component
      and its child slots, in the order of `Object.values(children)`. */
  datatype Mounted = Node(id: nat, slots: seq<Slot>)
  datatype Slot = Single(child: Mounted) | Array(items: seq<Mounted>)

  /** The ids whose mount hook fires, in firing order: own hook first, then
      each slot's components, each array element in turn. */
  function MountOrder(t: Mounted): seq<nat>
    decreases t, 1
  {
    [t.id] + SlotsOrder(t, 0)
  }

  function SlotsOrder(t: Mounted, i: nat): seq<nat>
    requires i <= |t.slots|
    decreases t, 0, |t.slots| - i
  {
    if i == |t.slots| then [] else SlotOrder(t.slots[i]) + SlotsOrder(t, i + 1)
  }

  function SlotOrder(s: Slot): seq<nat>
    decreases s, 2
  {
    match s
    case Single(c) => MountOrder(c)
    case Array(items) => ItemsOrder(s, 0)
  }

  function ItemsOrder(s: Slot, j: nat): seq<nat>
    requires s.Array? && j <= |s.items|
    decreases s, 1, |s.items| - j
  {
    if j == |s.items| then [] else MountOrder(s.items[j]) + ItemsOrder(s, j + 1)
  }

  /** The components of the tree, each occurrence counted: the root and
      the components of every slot, whatever their order. */
  function Ids(t: Mounted): multiset<nat>
    decreases t, 1
  {
    multiset{t.id} + SlotsIds(t, 0)
  }

  function SlotsIds(t: Mounted, i: nat): multiset<nat>
    requires i <= |t.slots|
    decreases t, 0, |t.slots| - i
  {
    if i == |t.slots| then multiset{} else SlotIds(t.slots[i]) + SlotsIds(t, i + 1)
  }

  function SlotIds(s: Slot): multiset<nat>
    decreases s, 2
  {
    match s
    case Single(c) => Ids(c)
    case Array(items) => ItemsIds(s, 0)
  }

  function ItemsIds(s: Slot, j: nat): multiset<nat>
    requires s.Array? && j <= |s.items|
    decreases s, 1, |s.items| - j
  {
    if j == |s.items| then multiset{} else Ids(s.items[j]) + ItemsIds(s, j + 1)
  }

  /** `dispatchComponentDidMount`: fire the own hook, then recurse into
      every child, array elements included. */
  method DispatchComponentDidMount(t: Mounted) returns (fired: seq<nat>)
    ensures fired == MountOrder(t)
    decreases t, 1
  {
    fired := [t.id];
    var i := 0;
    while i < |t.slots|
      invariant 0 <= i <= |t.slots|
      invariant fired + SlotsOrder(t, i) == MountOrder(t)
    {
      var slot := t.slots[i];
      match slot {
        case Single(c) =>
          var f := DispatchComponentDidMount(c);
          fired := fired + f;
        case Array(items) =>
          var j := 0;
          while j < |items|
            invariant 0 <= j <= |items|
            invariant fired + ItemsOrder(slot, j) + SlotsOrder(t, i + 1) == MountOrder(t)
          {
            var f := DispatchComponentDidMount(items[j]);
            fired := fired + f;
            j := j + 1;
          }
      }
      i := i + 1;
    }
  }

  /** Every component of the tree fires its hook exactly once per
      occurrence in the tree, and no other hook fires; the first to fire is
      the root. */
  lemma {:induction false} MountOrderCoversTree(t: Mounted)
    ensures multiset(MountOrder(t)) == Ids(t)
    ensures |MountOrder(t)| == |Ids(t)|
    ensures MountOrder(t)[0] == t.id
    decreases t, 1
  {
    SlotsCover(t, 0);
  }

  lemma {:induction false} SlotsCover(t: Mounted, i: nat)
    requires i <= |t.slots|
    ensures multiset(SlotsOrder(t, i)) == SlotsIds(t, i)
    decreases t, 0, |t.slots| - i
  {
    if i < |t.slots| {
      SlotCovers(t.slots[i]);
      SlotsCover(t, i + 1);
    }
  }

  lemma {:induction false} SlotCovers(s: Slot)
    ensures multiset(SlotOrder(s)) == SlotIds(s)
    decreases s, 2
  {
    match s
    case Single(c) => MountOrderCoversTree(c);
    case Array(items) => ItemsCover(s, 0);
  }

  lemma {:induction false} ItemsCover(s: Slot, j: nat)
    requires s.Array? && j <= |s.items|
    ensures multiset(ItemsOrder(s, j)) == ItemsIds(s, j)
    decreases s, 1, |s.items| - j
  {
    if j < |s.items| {
      MountOrderCoversTree(s.items[j]);
      ItemsCover(s, j + 1);
    }
  }

  /** Where a handler of the `events` prop is attached. */
  datatype Binding = OnRoot(eventName: string) | Delegated(eventName: string, selector: string)

  /** `const [eventName, selector] = eventSpec.split('@')`, then `if (selector)`:
      a missing or empty selector attaches to the root element; segments
      after a second '@' are ignored. */
  function ParseEventSpec(spec: string): Binding
  {
    var parts := Split(spec, '@');
    var selector := if |parts| > 1 then parts[1] else "";
    if selector != "" then Delegated(parts[0], selector) else OnRoot(parts[0])
  }

  /** The spec string that designates a binding. */
  function FormatBinding(b: Binding): string
  {
    match b
    case OnRoot(name) => name
    case Delegated(name, selector) => name + "@" + selector
  }

  predicate WellFormed(b: Binding)
  {
    '@' !in b.eventName && (b.Delegated? ==> b.selector != "" && '@' !in b.selector)
  }

  /** Parsing recovers every well-formed binding from its spec string. */
  lemma ParseFormat(b: Binding)
    requires WellFormed(b)
    ensures ParseEventSpec(FormatBinding(b)) == b
  {
    match b
    case OnRoot(name) =>
      SplitNoSep(name, '@');
    case Delegated(name, selector) =>
      SplitJoin([name, selector], '@');
      assert Join([name, selector], '@') == name + "@" + selector;
  }

  /** Splitting at a segment free of the separator keeps that segment and
      splits the rest as before. */
  lemma SplitAtFreeSegment(first: string, rest: string, sep: char)
    requires sep !in first
    ensures Split(first + [sep] + rest, sep) == [first] + Split(rest, sep)
  {
    var parts := Split(rest, sep);
    JoinSplit(rest, sep);
    JoinCons(first, parts, sep);
    SplitJoin([first] + parts, sep) by {
      assert forall i :: 1 <= i < |[first] + parts| ==> ([first] + parts)[i] == parts[i - 1];
    }
  }

  /** The spec's edge cases: no '@' means the root, a trailing '@' means the
      root too, and anything after a second '@' is dropped. */
  lemma ParseEventSpecEdges(name: string, selector: string, rest: string)
    requires '@' !in name && '@' !in selector
    ensures ParseEventSpec(name) == OnRoot(name)
    ensures ParseEventSpec(name + "@") == OnRoot(name)
    ensures selector != "" ==> ParseEventSpec(name + "@" + selector + "@" + rest) == Delegated(name, selector)
  {
    SplitNoSep(name, '@');
    SplitAtFreeSegment(name, "", '@');
    assert name + "@" == name + ['@'] + "";
    SplitAtFreeSegment(selector, rest, '@');
    SplitAtFreeSegment(name, selector + ['@'] + rest, '@');
    assert name + "@" + selector + "@" + rest == name + ['@'] + (selector + ['@'] + rest);
  }
}
