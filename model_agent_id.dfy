/**
 * The generated API client's model type ModelAgentId (one field, `node_id`
 * in JSON) and its nullable wrapper NullableModelAgentId, a two-field state
 * (`value`, `isSet`) changed by Set, Unset and UnmarshalJSON.
 *
 * A Go nil pointer is Dafny's `null`. The JSON library is not modelled: what
 * a decoding stored and whether it failed is a parameter of UnmarshalJSON.
 */
module ServerClient {
  import opened Wrappers

  /** `ModelAgentId`. */
  class ModelAgentId {
    var NodeId: string

    /** The zero value `ModelAgentId{}`. */
    constructor ()
      ensures NodeId == ""
    {
      NodeId := "";
    }

    /** Sets the field; nothing else changes. */
    method SetNodeId(v: string)
      modifies this`NodeId
      ensures NodeId == v
      ensures GetNodeId(this) == v
    {
      NodeId := v;
    }

    /** The map serialised to JSON: exactly the key "node_id", bound to the field; never an error. */
    function ToMap(): (r: (map<string, string>, Option<string>))
      reads this
      ensures r.0.Keys == {"node_id"}
      ensures "node_id" in r.0 && r.0["node_id"] == NodeId
      ensures r.1.None?
    {
      (map["node_id" := NodeId], None)
    }
  }

  /** `NewModelAgentId(nodeId)`: a new value holding the given node id. */
  method NewModelAgentId(nodeId: string) returns (o: ModelAgentId)
    ensures fresh(o)
    ensures o.NodeId == nodeId
  {
    o := new ModelAgentId();
    o.NodeId := nodeId;
  }

  /** `NewModelAgentIdWithDefaults()`: a new value with the empty node id. */
  method NewModelAgentIdWithDefaults() returns (o: ModelAgentId)
    ensures fresh(o)
    ensures o.NodeId == ""
  {
    o := new ModelAgentId();
  }

  /** `GetNodeId`, which Go allows on a nil receiver: '' for nil, the field otherwise. */
  function GetNodeId(o: ModelAgentId?): (r: string)
    reads o
    ensures o == null ==> r == ""
    ensures o != null ==> r == o.NodeId
  {
    if o == null then "" else o.NodeId
  }

  /** A Go `*string`: nil, or the address of the NodeId field of an object. */
  datatype StringRef = NilRef | NodeIdOf(owner: ModelAgentId)

  /** The string a non-nil reference points to. */
  function Deref(p: StringRef): string
    requires p.NodeIdOf?
    reads p.owner
  {
    p.owner.NodeId
  }

  /** `GetNodeIdOk`: (nil, false) for a nil receiver, (the address of its NodeId, true) otherwise. */
  function GetNodeIdOk(o: ModelAgentId?): (r: (StringRef, bool))
    ensures r.1 <==> o != null
    ensures r.0.NilRef? <==> o == null
    ensures r.0.NodeIdOf? ==> r.0.owner == o
  {
    if o == null then (NilRef, false) else (NodeIdOf(o), true)
  }

  /** Where GetNodeIdOk reports a value, it points at what GetNodeId returns. */
  lemma GetNodeIdOkAgrees(o: ModelAgentId?)
    ensures GetNodeIdOk(o).1 ==> Deref(GetNodeIdOk(o).0) == GetNodeId(o)
  {
  }

  /** The state of a NullableModelAgentId: the held value and whether it was set. */
  datatype NullableState = NullableState(value: ModelAgentId?, isSet: bool)

  /** The zero value, and the state Unset leaves. */
  const UnsetState: NullableState := NullableState(null, false)

  /** The state after `Set(val)` from state `s`. */
  function SetState(s: NullableState, val: ModelAgentId?): NullableState
  {
    NullableState(val, true)
  }

  /** The state after `Unset()` from state `s`. */
  function UnsetOf(s: NullableState): NullableState
  {
    UnsetState
  }

  /**
   * What the JSON library did with `&v.value`: decoded a value (possibly
   * nil), or failed, leaving `left` in the field and reporting `error`.
   */
  datatype DecodeResult = Decoded(decoded: ModelAgentId?) | DecodeFailed(left: ModelAgentId?, error: string)

  /** The state after `UnmarshalJSON` from state `s`: marked set first, whatever the decoding does. */
  function UnmarshalState(s: NullableState, d: DecodeResult): NullableState
  {
    match d
    case Decoded(v) => NullableState(v, true)
    case DecodeFailed(left, _) => NullableState(left, true)
  }

  /** After Set the value is the one given and the flag is up, also for nil; the earlier state is forgotten. */
  lemma SetOverwrites(s: NullableState, t: NullableState, val: ModelAgentId?)
    ensures SetState(s, val).value == val && SetState(s, val).isSet
    ensures SetState(s, val) == SetState(t, val)
  {
  }

  /** Unset clears both fields, and a second Unset changes nothing. */
  lemma UnsetIdempotent(s: NullableState)
    ensures UnsetOf(s).value == null && !UnsetOf(s).isSet
    ensures UnsetOf(UnsetOf(s)) == UnsetOf(s)
  {
  }

  /** UnmarshalJSON leaves the flag up even when decoding fails. */
  lemma UnmarshalMarksSet(s: NullableState, d: DecodeResult)
    ensures UnmarshalState(s, d).isSet
    ensures d.Decoded? ==> UnmarshalState(s, d).value == d.decoded
  {
  }

  /** `NullableModelAgentId`. */
  class NullableModelAgentId {
    var value: ModelAgentId?
    var isSet: bool

    function State(): NullableState
      reads this
    {
      NullableState(value, isSet)
    }

    /** The zero value `NullableModelAgentId{}`. */
    constructor ()
      ensures State() == UnsetState
    {
      value := null;
      isSet := false;
    }

    function Get(): (r: ModelAgentId?)
      reads this
      ensures r == State().value
    {
      value
    }

    function IsSet(): (r: bool)
      reads this
      ensures r == State().isSet
    {
      isSet
    }

    method Set(val: ModelAgentId?)
      modifies this
      ensures State() == SetState(old(State()), val)
      ensures Get() == val && IsSet()
    {
      value := val;
      isSet := true;
    }

    method Unset()
      modifies this
      ensures State() == UnsetOf(old(State()))
      ensures Get() == null && !IsSet()
      ensures old(State()) == UnsetState ==> unchanged(this)
    {
      value := null;
      isSet := false;
    }

    /**
     * Marks the wrapper set, then lets the decoding store its value; returns
     * its error, if any. The decoding may also write into the object already
     * held, so that object is in the frame and nothing is promised about it.
     */
    method UnmarshalJSON(d: DecodeResult) returns (err: Option<string>)
      modifies this, value
      ensures State() == UnmarshalState(old(State()), d)
      ensures IsSet()
      ensures err.Some? <==> d.DecodeFailed?
      ensures d.DecodeFailed? ==> err.value == d.error
    {
      isSet := true;
      match d
      case Decoded(v) =>
        value := v;
        err := None;
      case DecodeFailed(left, e) =>
        value := left;
        err := Some(e);
    }
  }

  /** `NewNullableModelAgentId(val)`: a new wrapper holding `val` (also nil) and marked set, as after Set(val). */
  method NewNullableModelAgentId(val: ModelAgentId?) returns (n: NullableModelAgentId)
    ensures fresh(n)
    ensures n.Get() == val && n.IsSet()
  {
    n := new NullableModelAgentId();
    n.value := val;
    n.isSet := true;
  }
}
