/**
 `BackendRegistry` as written: a class whose methods change the maps of backends and tools. Each
 method does exactly the operations of the `Registry` module that its contract names, so the index
 agrees with the backend definitions after every method.
 */
module RegistryClass {
  import opened Options
  import opened Json
  import opened ArgPolicy
  import opened Registry
  import opened RegistryIndex
  import opened Namespaces

  /** What a health check of one backend finds. */
  datatype Probe = Probe(ok: bool, refresh: bool, contact: Contact)

  class BackendRegistry {
    var backends: map<string, Handle>
    var toolIndex: Index

    constructor ()
      ensures Valid() && View() == EMPTY
    {
      backends, toolIndex := map[], map[];
    }

    function View(): Reg
      reads this
    {
      Reg(backends, toolIndex)
    }

    /** Every entry is what the definition of its registered backend makes of one of its tools. */
    predicate Valid()
      reads this
    {
      IndexOk(backends, toolIndex)
    }

    method RegisterBackend(id: string, def: BackendDef) returns (ok: bool)
      requires Valid()
      modifies this`backends
      ensures Valid() && View() == Do(old(View()), Register(id, def)) && ok == (id !in old(backends))
      ensures toolIndex == old(toolIndex)
      ensures backends == if ok then old(backends)[id := Handle(def, false, None, 0)] else old(backends)
    {
      if id in backends {
        return false;
      }
      backends := backends[id := Handle(def, false, None, 0)];
      ok := true;
    }

    /** `disconnected`: whether the backend, already gone from the maps, could be disconnected. */
    method UnregisterBackend(id: string, disconnected: bool) returns (ok: bool)
      requires Valid()
      modifies this
      ensures Valid() && View() == Do(old(View()), Unregister(id)) && ok == (id in old(backends) && disconnected)
      ensures forall other :: other in backends <==> other in old(backends) && other != id
      ensures forall other | other in backends :: backends[other] == old(backends)[other]
      ensures id in old(backends) ==>
        forall key :: key in toolIndex <==> key in old(toolIndex) && old(toolIndex)[key].backend != id
      ensures forall key | key in toolIndex :: toolIndex[key] == old(toolIndex)[key]
    {
      DoKeepsIndex(View(), Unregister(id));
      if id !in backends {
        return false;
      }
      backends := backends - {id};
      toolIndex := map key | key in toolIndex && toolIndex[key].backend != id :: toolIndex[key];
      ok := disconnected;
    }

    /** Indexes tools, stopping at the first name that is taken. */
    method IndexTools(id: string, def: BackendDef, tools: seq<Tool>) returns (ok: bool)
      modifies this`toolIndex
      ensures (toolIndex, ok) == Add(old(toolIndex), id, def, tools)
    {
      for i := 0 to |tools|
        invariant Add(old(toolIndex), id, def, tools) == Add(toolIndex, id, def, tools[i..])
      {
        assert tools[i..][1..] == tools[i + 1..];
        var name := Exposed(def.namespace, tools[i].name);
        if name in toolIndex {
          return false;
        }
        var schema := Strip(tools[i].schema, Hidden(def.policy));
        toolIndex := toolIndex[name := RoutedTool(id, name, tools[i].name, Tool(name, tools[i].description, schema))];
      }
      ok := true;
    }

    /** Replaces a backend's entries by the tools it lists, up to the first collision. */
    method ConnectAndIndex(id: string, contact: Contact) returns (ok: bool)
      modifies this
      ensures View() == Do(old(View()), ConnectTo(id, contact)) && ok == Connects(old(View()), id, contact)
    {
      if id !in backends || contact.Refused? {
        return false;
      }
      var handle := backends[id].(events := Some(contact.events));
      backends := backends[id := handle];
      if contact.NoTools? {
        return false;
      }
      toolIndex := map key | key in toolIndex && toolIndex[key].backend != id :: toolIndex[key];
      ok := IndexTools(id, handle.def, Filter(handle.def, contact.tools));
      if ok {
        backends := backends[id := handle.(healthy := true, attempts := 0)];
      }
    }

    method ConnectBackend(id: string, contact: Contact) returns (ok: bool)
      requires Valid()
      modifies this
      ensures Valid() && View() == Do(old(View()), ConnectTo(id, contact)) && ok == Connects(old(View()), id, contact)
      ensures ok ==> backends[id].healthy && backends[id].attempts == 0
      ensures ok ==> forall tool | tool in contact.tools && Wanted(backends[id].def, tool.name) ::
          IsRouted(toolIndex, id, backends[id].def, tool)
    {
      DoKeepsIndex(View(), ConnectTo(id, contact));
      if Connects(View(), id, contact) {
        ConnectIndexesTools(View(), id, contact);
      }
      ok := ConnectAndIndex(id, contact);
    }

    /** Connects the given backends one after the other, with a result for each. */
    method ConnectEachOf(ids: seq<string>, contacts: map<string, Contact>) returns (results: seq<(string, bool)>)
      requires Valid() && forall id | id in ids :: id in contacts
      modifies this
      ensures Valid() && View() == DoAll(old(View()), ConnectOps(ids, contacts))
      ensures results == Results(old(View()), ids, contacts)
    {
      DoAllKeepsIndex(View(), ConnectOps(ids, contacts));
      ghost var end, all := DoAll(View(), ConnectOps(ids, contacts)), Results(View(), ids, contacts);
      results := [];
      for i := 0 to |ids|
        invariant end == DoAll(View(), ConnectOps(ids[i..], contacts))
        invariant all == results + Results(View(), ids[i..], contacts)
      {
        OneMoreConnected(View(), ids, i, contacts, results);
        var ok := ConnectAndIndex(ids[i], contacts[ids[i]]);
        results := results + [(ids[i], ok)];
      }
    }

    /** Connects every eager backend; `order` is how the map of backends is walked. */
    method ConnectAll(order: seq<string>, contacts: map<string, Contact>) returns (results: seq<(string, bool)>)
      requires Valid() && forall id | id in order :: id in contacts
      modifies this
      ensures Valid()
      ensures View() == ConnectEach(old(View()), Select(old(backends), order, IsEager), contacts)
      ensures results == Results(old(View()), Select(old(backends), order, IsEager), contacts)
      ensures forall id ::
          (exists i | 0 <= i < |results| :: results[i].0 == id)
          <==> id in order && id in old(backends) && old(backends)[id].def.mode == Eager
    {
      ResultsAreOf(View(), Select(backends, order, IsEager), contacts);
      ConnectEachIsOps(View(), Select(backends, order, IsEager), contacts);
      results := ConnectEachOf(Select(backends, order, IsEager), contacts);
    }

    /** Forgets every tool, then lists them again from the healthy backends. */
    method RefreshTools(order: seq<string>, contacts: map<string, Contact>)
      requires Valid() && forall id | id in order :: id in contacts
      modifies this
      ensures Valid()
      ensures View() == ConnectEach(Do(old(View()), ClearIndex), Select(old(backends), order, IsHealthy), contacts)
      ensures forall key | key in toolIndex ::
          var id := toolIndex[key].backend; id in order && id in old(backends) && old(backends)[id].healthy
    {
      var ids := Select(backends, order, IsHealthy);
      toolIndex := map[];
      ConnectEachIsOps(View(), ids, contacts);
      ghost var cleared := View();
      var _ := ConnectEachOf(ids, contacts);
      forall key | key in toolIndex
        ensures toolIndex[key].backend in ids
      {
        EntriesComeFrom(cleared, ids, contacts, key);
      }
    }

    method CheckOne(id: string, probe: Probe)
      requires Valid()
      modifies this
      ensures Valid() && View() == DoAll(old(View()), CheckOps(old(View()), id, probe))
      ensures Checked(old(View()), View(), id, probe)
    {
      CheckOpsDone(View(), id, probe);
      CheckOutcome(View(), id, probe);
      if id in backends {
        if !backends[id].healthy {
          Reconnect(id, probe.contact);
        } else if !probe.ok {
          DoKeepsIndex(View(), MarkUnhealthy(id));
          backends := backends[id := backends[id].(healthy := false)];
        } else if probe.refresh {
          var _ := ConnectBackend(id, probe.contact);
        }
      }
    }

    method Reconnect(id: string, contact: Contact)
      requires Valid() && id in backends
      modifies this
      ensures Valid() && View() == Do(Do(old(View()), CountAttempt(id)), ConnectTo(id, contact))
    {
      DoKeepsIndex(View(), CountAttempt(id));
      backends := backends[id := backends[id].(attempts := backends[id].attempts + 1)];
      var _ := ConnectBackend(id, contact);
    }

    /** One round of health checks over the backends that keep a connection. */
    method RunHealthChecks(order: seq<string>, probes: map<string, Probe>)
      requires Valid() && forall id | id in order :: id in probes
      modifies this
      ensures Valid()
      ensures
        View() == DoAll(old(View()), CheckAllOps(old(View()), Select(old(backends), order, KeepsConnection), probes))
      ensures forall id | id in old(backends) && (id !in order || old(backends)[id].def.mode == PerCall) ::
          id in backends && backends[id] == old(backends)[id]
      ensures NoRepeats(order) ==>
        forall id | id in order && id in old(backends) && old(backends)[id].def.mode != PerCall ::
          id in backends && WasChecked(old(backends)[id], backends[id], probes[id])
    {
      var ids := Select(backends, order, KeepsConnection);
      SelectDoesNotRepeat(backends, order, KeepsConnection);
      RoundLeavesOthers(View(), ids, probes);
      if NoRepeats(order) {
        RoundChecksEach(View(), ids, probes);
      }
      for i := 0 to |ids|
        invariant Valid()
        invariant
          DoAll(old(View()), CheckAllOps(old(View()), ids, probes)) == DoAll(View(), CheckAllOps(View(), ids[i..], probes))
      {
        assert ids[i..][1..] == ids[i + 1..];
        CheckFirstOfMany(View(), ids[i..], probes);
        CheckOne(ids[i], probes[ids[i]]);
      }
    }
  }

  predicate IsEager(h: Handle) {
    h.def.mode.Eager?
  }

  predicate IsHealthy(h: Handle) {
    h.healthy
  }

  predicate KeepsConnection(h: Handle) {
    !h.def.mode.PerCall?
  }

  /** The registered ids of `order` whose handle is wanted, in the same order. */
  function Select(backends: map<string, Handle>, order: seq<string>, wanted: Handle -> bool): (ids: seq<string>)
    ensures forall id :: id in ids <==> id in order && id in backends && wanted(backends[id])
  {
    if order == [] then []
    else
      assert order == [order[0]] + order[1..];
      (if order[0] in backends && wanted(backends[order[0]]) then [order[0]] else [])
      + Select(backends, order[1..], wanted)
  }

  function ConnectOps(ids: seq<string>, contacts: map<string, Contact>): seq<Op>
    requires forall id | id in ids :: id in contacts
  {
    if ids == [] then [] else [ConnectTo(ids[0], contacts[ids[0]])] + ConnectOps(ids[1..], contacts)
  }

  /** The result of each connection, in order. */
  function Results(reg: Reg, ids: seq<string>, contacts: map<string, Contact>): seq<(string, bool)>
    requires forall id | id in ids :: id in contacts
    decreases |ids|
  {
    if ids == [] then []
    else
      var contact := contacts[ids[0]];
      [(ids[0], Connects(reg, ids[0], contact))] + Results(Connect(reg, ids[0], contact), ids[1..], contacts)
  }

  lemma FirstOfMany(reg: Reg, ids: seq<string>, contacts: map<string, Contact>)
    requires ids != [] && forall id | id in ids :: id in contacts
    ensures
      DoAll(reg, ConnectOps(ids, contacts))
      == DoAll(Do(reg, ConnectTo(ids[0], contacts[ids[0]])), ConnectOps(ids[1..], contacts))
  {
  }

  /** One turn of a loop that connects backends and collects the results. */
  lemma OneMoreConnected(reg: Reg, ids: seq<string>, i: nat, contacts: map<string, Contact>, results: seq<(string, bool)>)
    requires i < |ids| && forall id | id in ids :: id in contacts
    ensures
      var id, contact := ids[i], contacts[ids[i]];
      var reg' := Do(reg, ConnectTo(id, contact));
      && DoAll(reg, ConnectOps(ids[i..], contacts)) == DoAll(reg', ConnectOps(ids[i + 1..], contacts))
      && results + Results(reg, ids[i..], contacts)
         == (results + [(id, Connects(reg, id, contact))]) + Results(reg', ids[i + 1..], contacts)
  {
    assert ids[i..][1..] == ids[i + 1..];
    FirstOfMany(reg, ids[i..], contacts);
    var rest := Results(Connect(reg, ids[i], contacts[ids[i]]), ids[i + 1..], contacts);
    var one := (ids[i], Connects(reg, ids[i], contacts[ids[i]]));
    assert Results(reg, ids[i..], contacts) == [one] + rest;
    assert results + ([one] + rest) == (results + [one]) + rest;
  }

  lemma {:induction false} ConnectEachIsOps(reg: Reg, ids: seq<string>, contacts: map<string, Contact>)
    requires forall id | id in ids :: id in contacts
    ensures ConnectEach(reg, ids, contacts) == DoAll(reg, ConnectOps(ids, contacts))
    decreases |ids|
  {
    if ids != [] {
      FirstOfMany(reg, ids, contacts);
      ConnectEachIsOps(Connect(reg, ids[0], contacts[ids[0]]), ids[1..], contacts);
    }
  }

  lemma {:induction false} DoAllOn(reg: Reg, a: seq<Op>, b: seq<Op>)
    ensures DoAll(reg, a + b) == DoAll(DoAll(reg, a), b)
    decreases |a|
  {
    if a == [] {
      assert a + b == b;
    } else {
      assert (a + b)[1..] == a[1..] + b;
      DoAllOn(Do(reg, a[0]), a[1..], b);
    }
  }

  /** The operations that the health check of one backend comes to. */
  function CheckOps(reg: Reg, id: string, probe: Probe): seq<Op> {
    if id !in reg.backends then []
    else if !reg.backends[id].healthy then [CountAttempt(id), ConnectTo(id, probe.contact)]
    else if !probe.ok then [MarkUnhealthy(id)]
    else if probe.refresh then [ConnectTo(id, probe.contact)]
    else []
  }

  lemma CheckOpsDone(reg: Reg, id: string, probe: Probe)
    ensures
      DoAll(reg, CheckOps(reg, id, probe)) ==
        if id !in reg.backends then reg
        else if !reg.backends[id].healthy then Do(Do(reg, CountAttempt(id)), ConnectTo(id, probe.contact))
        else if !probe.ok then Do(reg, MarkUnhealthy(id))
        else if probe.refresh then Do(reg, ConnectTo(id, probe.contact))
        else reg
  {
    if id in reg.backends && !reg.backends[id].healthy {
      var reg' := Do(reg, CountAttempt(id));
      assert CheckOps(reg, id, probe)[1..] == [ConnectTo(id, probe.contact)];
      assert DoAll(reg', [ConnectTo(id, probe.contact)]) == Do(reg', ConnectTo(id, probe.contact));
    }
  }

  /**
   What the health check of one backend comes to: a connected one is healthy afterwards exactly if it
   answered the probe; one that was not is, exactly if connecting succeeded, and otherwise counts one
   more attempt. Nobody else's state changes, and no tools unless it was connected anew.
   */
  predicate Checked(before: Reg, after: Reg, id: string, probe: Probe) {
    && before.backends.Keys == after.backends.Keys
    && (forall other | other in before.backends && other != id :: after.backends[other] == before.backends[other])
    && (id !in before.backends ==> after.index == before.index)
    && (id in before.backends ==>
          var h, h' := before.backends[id], after.backends[id];
          if h.healthy then
            && h'.healthy == probe.ok
            && (!(probe.ok && probe.refresh) ==> after.index == before.index && h'.attempts == h.attempts)
          else
            && h'.healthy == Connects(before, id, probe.contact)
            && h'.attempts == if h'.healthy then 0 else h.attempts + 1)
  }

  lemma CheckOutcome(reg: Reg, id: string, probe: Probe)
    ensures Checked(reg, DoAll(reg, CheckOps(reg, id, probe)), id, probe)
  {
    CheckOpsDone(reg, id, probe);
    if id in reg.backends {
      if !reg.backends[id].healthy {
        ConnectKeepsBackends(Do(reg, CountAttempt(id)), id, probe.contact);
      } else if probe.refresh {
        ConnectKeepsBackends(reg, id, probe.contact);
      }
    }
  }

  /** How a round of health checks leaves a backend that keeps a connection. */
  predicate WasChecked(h: Handle, h': Handle, probe: Probe) {
    if h.healthy then h'.healthy == probe.ok
    else h'.attempts == if h'.healthy then 0 else h.attempts + 1
  }

  lemma {:induction false} SelectDoesNotRepeat(backends: map<string, Handle>, order: seq<string>, wanted: Handle -> bool)
    ensures NoRepeats(order) ==> NoRepeats(Select(backends, order, wanted))
  {
    if order != [] {
      SelectDoesNotRepeat(backends, order[1..], wanted);
      if NoRepeats(order) {
        assert order[0] !in order[1..];
        var rest := Select(backends, order[1..], wanted);
        InFrontDoesNotRepeat(order[0], rest);
        assert [] + rest == rest;
      }
    }
  }

  lemma {:induction false} ResultsAreOf(reg: Reg, ids: seq<string>, contacts: map<string, Contact>)
    requires forall id | id in ids :: id in contacts
    ensures |Results(reg, ids, contacts)| == |ids|
    ensures forall i | 0 <= i < |ids| :: Results(reg, ids, contacts)[i].0 == ids[i]
    decreases |ids|
  {
    if ids != [] {
      ResultsAreOf(Connect(reg, ids[0], contacts[ids[0]]), ids[1..], contacts);
    }
  }

  /** The operations of a round of health checks: each backend's depend on what the checks before it did. */
  function CheckAllOps(reg: Reg, ids: seq<string>, probes: map<string, Probe>): seq<Op>
    requires forall id | id in ids :: id in probes
    decreases |ids|
  {
    if ids == [] then []
    else
      var ops := CheckOps(reg, ids[0], probes[ids[0]]);
      ops + CheckAllOps(DoAll(reg, ops), ids[1..], probes)
  }

  lemma CheckFirstOfMany(reg: Reg, ids: seq<string>, probes: map<string, Probe>)
    requires ids != [] && forall id | id in ids :: id in probes
    ensures
      var reg' := DoAll(reg, CheckOps(reg, ids[0], probes[ids[0]]));
      DoAll(reg, CheckAllOps(reg, ids, probes)) == DoAll(reg', CheckAllOps(reg', ids[1..], probes))
  {
    var ops := CheckOps(reg, ids[0], probes[ids[0]]);
    DoAllOn(reg, ops, CheckAllOps(DoAll(reg, ops), ids[1..], probes));
  }

  /** A round changes no backend outside it. */
  lemma {:induction false} RoundLeavesOthers(reg: Reg, ids: seq<string>, probes: map<string, Probe>)
    requires forall id | id in ids :: id in probes
    ensures
      var reg' := DoAll(reg, CheckAllOps(reg, ids, probes));
      && reg'.backends.Keys == reg.backends.Keys
      && forall id | id in reg.backends && id !in ids :: reg'.backends[id] == reg.backends[id]
    decreases |ids|
  {
    if ids != [] {
      var reg1 := DoAll(reg, CheckOps(reg, ids[0], probes[ids[0]]));
      CheckFirstOfMany(reg, ids, probes);
      CheckOutcome(reg, ids[0], probes[ids[0]]);
      RoundLeavesOthers(reg1, ids[1..], probes);
    }
  }

  /** And it checks each backend in it. */
  lemma {:induction false} RoundChecksEach(reg: Reg, ids: seq<string>, probes: map<string, Probe>)
    requires NoRepeats(ids) && forall id | id in ids :: id in probes && id in reg.backends
    ensures
      var reg' := DoAll(reg, CheckAllOps(reg, ids, probes));
      && reg'.backends.Keys == reg.backends.Keys
      && forall id | id in ids :: WasChecked(reg.backends[id], reg'.backends[id], probes[id])
    decreases |ids|
  {
    RoundLeavesOthers(reg, ids, probes);
    if ids != [] {
      var first := ids[0];
      var reg1 := DoAll(reg, CheckOps(reg, first, probes[first]));
      CheckFirstOfMany(reg, ids, probes);
      CheckOutcome(reg, first, probes[first]);
      assert first !in ids[1..];
      RoundLeavesOthers(reg1, ids[1..], probes);
      RoundChecksEach(reg1, ids[1..], probes);
      assert forall id | id in ids :: id == first || id in ids[1..];
    }
  }
}
