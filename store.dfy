/** The global store of src/core/store/store.ts and its `connect` wrapper.

    The store is an event bus with a state object. The only listeners of its
    `updated` event are the components `connect` builds, each of which, when
    called, recomputes its projection of the state and passes it to its own
    `setProps`. So a listener is the connected component itself, and the
    store remembers which `mapStateToProps` each one captured. */
module Stores {
  import opened Wrappers
  import opened MyDash
  import opened Events
  import opened Blocks

  /** `StoreEvents.Updated`. */
  const Updated := "updated"

  /** `mapStateToProps`: the entries of the projected object, in order. */
  type Selector = JsValue -> seq<(string, JsValue)>

  /** The projection as props entries. */
  function Lift(entries: seq<(string, JsValue)>): (lifted: seq<(string, PropValue)>)
    ensures |lifted| == |entries|
    ensures forall i :: 0 <= i < |entries| ==> lifted[i] == (entries[i].0, Plain(entries[i].1))
  {
    if |entries| == 0 then [] else [(entries[0].0, Plain(entries[0].1))] + Lift(entries[1..])
  }

  /** `{ ...props, ...mapStateToProps(state) }`. */
  function ConnectedProps(props: Props, projection: seq<(string, JsValue)>): Props
  {
    Assign(props, Lift(projection))
  }

  /** Entry i is the last one of the projection that writes `key`. */
  predicate LastWrite(projection: seq<(string, JsValue)>, key: string, i: int)
  {
    0 <= i < |projection| && projection[i].0 == key
    && forall j :: i < j < |projection| ==> projection[j].0 != key
  }

  /** The initial props of a connected component are the incoming props
      overridden by the projection: a projected key holds its (last)
      projected value, any other key keeps the incoming one. */
  lemma ConnectedPropsOverride(props: Props, projection: seq<(string, JsValue)>, key: string)
    ensures (forall i :: 0 <= i < |projection| ==> projection[i].0 != key) ==>
      (key in ConnectedProps(props, projection) <==> key in props)
      && (key in props ==> ConnectedProps(props, projection)[key] == props[key])
    ensures forall i :: LastWrite(projection, key, i) ==>
      key in ConnectedProps(props, projection) && ConnectedProps(props, projection)[key] == Plain(projection[i].1)
  {
    var lifted := Lift(projection);
    if forall i :: 0 <= i < |projection| ==> projection[i].0 != key {
      AssignUntouched(props, lifted, key);
    }
    forall i | LastWrite(projection, key, i)
      ensures key in ConnectedProps(props, projection) && ConnectedProps(props, projection)[key] == Plain(projection[i].1)
    {
      AssignLastWins(props, lifted, key, i);
    }
  }

  class Store {
    var state: JsValue
    const bus: EventBus<Block>
    var selectors: map<Block, Selector>

    /** The components subscribed to `updated`, in subscription order. */
    function Subscribers(): seq<Block>
      reads this, bus
    {
      bus.Listeners(Updated)
    }

    ghost predicate Valid()
      reads this, bus
    {
      && state.Obj?
      && (forall i :: 0 <= i < |Subscribers()| ==> Subscribers()[i] in selectors)
      && (forall i, j :: 0 <= i < j < |Subscribers()| ==> Subscribers()[i] != Subscribers()[j])
    }

    constructor ()
      ensures Valid() && fresh(bus)
      ensures state == Obj(map[]) && Subscribers() == [] && selectors == map[]
    {
      state := Obj(map[]);
      bus := new EventBus();
      selectors := map[];
    }

    /** `getState`. */
    function GetState(): JsValue
      reads this
    {
      state
    }

    /** `set(path, value)`: one deep write, then one `updated` emission with
        no payload, whose listeners each pass their fresh projection of the
        new state to `setProps`, in subscription order. */
    method Set(path: string, value: JsValue) returns (calls: seq<Call<Block, ()>>)
      requires Valid()
      modifies this, Subscribers()
      ensures Valid()
      ensures state == MyDash.Set(old(state), path, value)
      ensures selectors == old(selectors) && Subscribers() == old(Subscribers())
      ensures |calls| == |Subscribers()|
      ensures forall i :: 0 <= i < |calls| ==> calls[i] == Call(Subscribers()[i], ())
      ensures forall i :: 0 <= i < |Subscribers()| ==>
        var b := Subscribers()[i];
        b.Snapshot() == ApplySetProps(old(b.Snapshot()), Some(Lift(selectors[b](state))), b.didUpdate)
    {
      SetWrites(state, path, value);
      state := SetPath(state, path, value);
      calls := bus.Emit(Updated, ());
      Notify(Subscribers());
    }

    /** The listeners `emit` invokes, one after the other: each passes its
        projection of the current state to its own `setProps`. */
    method Notify(subscribers: seq<Block>)
      requires forall i :: 0 <= i < |subscribers| ==> subscribers[i] in selectors
      requires forall i, j :: 0 <= i < j < |subscribers| ==> subscribers[i] != subscribers[j]
      modifies subscribers
      ensures forall i :: 0 <= i < |subscribers| ==>
        var b := subscribers[i];
        b.Snapshot() == ApplySetProps(old(b.Snapshot()), Some(Lift(selectors[b](state))), b.didUpdate)
    {
      var i := 0;
      while i < |subscribers|
        invariant 0 <= i <= |subscribers|
        invariant forall j :: 0 <= j < i ==>
          var b := subscribers[j];
          b.Snapshot() == ApplySetProps(old(b.Snapshot()), Some(Lift(selectors[b](state))), b.didUpdate)
        invariant forall j :: i <= j < |subscribers| ==> subscribers[j].Snapshot() == old(subscribers[j].Snapshot())
      {
        var b := subscribers[i];
        assert forall j :: 0 <= j < |subscribers| && j != i ==> subscribers[j] != b;
        b.SetProps(Some(Lift(selectors[b](state))));
        i := i + 1;
      }
    }

    /** A component class wrapped by `connect(select)`, constructed with
        `props`: it starts from the incoming props overridden by the current
        projection, and subscribes one listener that is never removed. */
    method Connect(id: nat, props: Props, select: Selector, didUpdate: UpdateHook) returns (b: Block)
      requires Valid()
      modifies this, bus
      ensures Valid() && fresh(b)
      ensures state == old(state)
      ensures b.id == id && b.didUpdate == didUpdate && b.inits == 1 && b.renders == 1
      ensures b.props == ConnectedProps(props, select(state)) && b.children == ChildrenOf(b.props)
      ensures Subscribers() == old(Subscribers()) + [b]
      ensures selectors == old(selectors)[b := select]
    {
      var before := Subscribers();
      b := new Block(id, ConnectedProps(props, select(state)), didUpdate);
      assert forall i :: 0 <= i < |before| ==> before[i] != b;
      bus.On(Updated, b);
      selectors := selectors[b := select];
    }
  }
}
