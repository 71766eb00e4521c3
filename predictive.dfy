/**
  * The predictive strategy's model repository: model states stored by
  * version, an active version, and listeners told about every newly active
  * state. Listeners are identified by a token; calling one is recorded as a
  * delivery, and an exception a listener raises is swallowed by the
  * repository, so every listener is called whatever the others do.
  */
module Predictive {
  import opened Wrappers

  /** A listener callable, by identity. */
  type ListenerId = nat

  /** `PredictiveModelState`, a frozen record; its `fusion_config` object is
      represented by an identity token. */
  datatype ModelState = ModelState(version: string, posteriorMean: real, posteriorStd: real, policyScore: real,
                                   fusionConfig: nat, metrics: map<string, real>)

  /** `PredictiveModelState.empty()`, with `object()` the fresh token given. */
  function EmptyState(freshConfig: nat): (s: ModelState)
    ensures s.version == "uninitialised" && s.posteriorStd == 1.0
    ensures s.posteriorMean == 0.0 && s.policyScore == 0.0 && s.metrics == map[]
  {
    ModelState("uninitialised", 0.0, 1.0, 0.0, freshConfig, map[])
  }

  predicate NoDuplicates(ls: seq<ListenerId>) {
    forall i, j | 0 <= i < j < |ls| :: ls[i] != ls[j]
  }

  /** The calls `_notify(state)` makes, one per listener in order. */
  function Broadcast(ls: seq<ListenerId>, state: ModelState): seq<(ListenerId, ModelState)> {
    seq(|ls|, i requires 0 <= i < |ls| => (ls[i], state))
  }

  /** The listener list after `subscribe(l)`. */
  function Subscribed(ls: seq<ListenerId>, l: ListenerId): seq<ListenerId> {
    if l in ls then ls else ls + [l]
  }

  /** `list.remove(l)`: the first occurrence removed; nothing when absent. */
  function RemoveFirst(ls: seq<ListenerId>, l: ListenerId): (r: seq<ListenerId>)
    ensures l !in ls ==> r == ls
    ensures l in ls ==> |r| == |ls| - 1
    ensures forall m | m != l :: m in r <==> m in ls
  {
    if ls == [] then []
    else if ls[0] == l then ls[1..]
    else
      assert forall m :: m in ls <==> m == ls[0] || m in ls[1..];
      [ls[0]] + RemoveFirst(ls[1..], l)
  }

  /** Subscribing twice is subscribing once, and subscriptions never list a
      listener twice. */
  lemma SubscribeIdempotent(ls: seq<ListenerId>, l: ListenerId)
    requires NoDuplicates(ls)
    ensures Subscribed(Subscribed(ls, l), l) == Subscribed(ls, l)
    ensures NoDuplicates(Subscribed(ls, l)) && l in Subscribed(ls, l)
  {
  }

  /** On a list without duplicates, removal drops the listener entirely and
      leaves a list without duplicates. */
  lemma {:induction false} RemoveFirstDrops(ls: seq<ListenerId>, l: ListenerId)
    requires NoDuplicates(ls)
    ensures NoDuplicates(RemoveFirst(ls, l)) && l !in RemoveFirst(ls, l)
    decreases |ls|
  {
    if ls == [] {
    } else if ls[0] == l {
      assert l !in ls[1..] by {
        forall k | 0 <= k < |ls[1..]| ensures ls[1..][k] != l {
          assert ls[1..][k] == ls[k + 1];
        }
      }
    } else {
      var tail := ls[1..];
      assert NoDuplicates(tail) by {
        forall i, j | 0 <= i < j < |tail| ensures tail[i] != tail[j] {
          assert tail[i] == ls[i + 1] && tail[j] == ls[j + 1];
        }
      }
      RemoveFirstDrops(tail, l);
      var rest := RemoveFirst(tail, l);
      assert ls[0] !in tail by {
        forall k | 0 <= k < |tail| ensures tail[k] != ls[0] {
          assert tail[k] == ls[k + 1];
        }
      }
      assert ls[0] !in rest;
      var r := [ls[0]] + rest;
      forall i, j | 0 <= i < j < |r| ensures r[i] != r[j] {
        if i == 0 {
          assert r[j] == rest[j - 1];
        } else {
          assert r[i] == rest[i - 1] && r[j] == rest[j - 1];
        }
      }
    }
  }

  /** Unsubscribing a listener that was just subscribed restores the list. */
  lemma {:induction false} UnsubscribeUndoesSubscribe(ls: seq<ListenerId>, l: ListenerId)
    requires l !in ls
    ensures RemoveFirst(Subscribed(ls, l), l) == ls
    decreases |ls|
  {
    if ls != [] {
      assert (ls + [l])[1..] == ls[1..] + [l];
      UnsubscribeUndoesSubscribe(ls[1..], l);
    }
  }

  class PredictiveModelRepository {
    var states: map<string, ModelState>
    var activeVersion: Option<string>
    var listeners: seq<ListenerId>
    /** Every listener call made so far, oldest first. */
    var deliveries: seq<(ListenerId, ModelState)>

    /** A set active version names a stored state, and no listener is listed
        twice. */
    ghost predicate Valid()
      reads this
    {
      (activeVersion.Some? ==> activeVersion.value in states) && NoDuplicates(listeners)
    }

    constructor ()
      ensures Valid()
      ensures states == map[] && activeVersion.None? && listeners == [] && deliveries == []
    {
      states := map[];
      activeVersion := None;
      listeners := [];
      deliveries := [];
    }

    /** `upsert(state)`: store the state under its version, replacing any
        earlier one; the first state stored becomes active and is announced. */
    method Upsert(state: ModelState)
      requires Valid()
      modifies this`states, this`activeVersion, this`deliveries
      ensures Valid()
      ensures states == old(states)[state.version := state]
      ensures old(activeVersion).None? ==>
        activeVersion == Some(state.version) && deliveries == old(deliveries) + Broadcast(listeners, state)
      ensures old(activeVersion).Some? ==> activeVersion == old(activeVersion) && deliveries == old(deliveries)
    {
      states := states[state.version := state];
      if activeVersion.None? {
        activeVersion := Some(state.version);
        Notify(state);
      }
    }

    /** `activate(version)`: false for an unknown version (the source raises
        KeyError) with nothing changed; otherwise the version becomes active
        and its state is announced. */
    method Activate(version: string) returns (known: bool)
      requires Valid()
      modifies this`activeVersion, this`deliveries
      ensures Valid()
      ensures known <==> version in states
      ensures !known ==> activeVersion == old(activeVersion) && deliveries == old(deliveries)
      ensures known ==>
        activeVersion == Some(version) && deliveries == old(deliveries) + Broadcast(listeners, states[version])
    {
      if version !in states {
        return false;
      }
      activeVersion := Some(version);
      Notify(states[version]);
      return true;
    }

    /** `get_active()`: None where the source raises LookupError, which is
        when no version is active or the active version is the empty (falsy)
        string. */
    function GetActive(): (r: Option<ModelState>)
      reads this
      requires Valid()
      ensures r.None? <==> activeVersion.None? || activeVersion == Some("")
      ensures r.Some? ==> r.value == states[activeVersion.value]
    {
      if activeVersion.None? || activeVersion.value == "" then None else Some(states[activeVersion.value])
    }

    /** `subscribe(listener)`. */
    method Subscribe(listener: ListenerId)
      requires Valid()
      modifies this`listeners
      ensures Valid()
      ensures listeners == Subscribed(old(listeners), listener)
    {
      if listener !in listeners {
        listeners := listeners + [listener];
      }
    }

    /** `unsubscribe(listener)`. */
    method Unsubscribe(listener: ListenerId)
      requires Valid()
      modifies this`listeners
      ensures Valid()
      ensures listeners == RemoveFirst(old(listeners), listener) && listener !in listeners
    {
      RemoveFirstDrops(listeners, listener);
      listeners := RemoveFirst(listeners, listener);
    }

    /** `_notify(state)`: call every listener of a snapshot of the list, in
        order; one that raises does not stop the rest. */
    method Notify(state: ModelState)
      modifies this`deliveries
      ensures deliveries == old(deliveries) + Broadcast(listeners, state)
    {
      var snapshot := listeners;
      var i := 0;
      while i < |snapshot|
        invariant 0 <= i <= |snapshot|
        invariant deliveries == old(deliveries) + Broadcast(snapshot[..i], state)
      {
        assert Broadcast(snapshot[..i + 1], state) == Broadcast(snapshot[..i], state) + [(snapshot[i], state)];
        deliveries := deliveries + [(snapshot[i], state)];
        i := i + 1;
      }
      assert snapshot[..i] == snapshot;
    }
  }
}
