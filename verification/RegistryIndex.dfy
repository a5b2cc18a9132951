/** The index agrees with the backend definitions after any operations, and backends do not disturb each other. */
module RegistryIndex {
  import opened Options
  import opened Json
  import opened ArgPolicy
  import opened Registry

  /** An entry is what its backend's definition makes of one of its tools. */
  predicate EntryOk(def: BackendDef, key: string, r: RoutedTool) {
    && key == r.exposed == r.descriptor.name == Exposed(def.namespace, r.downstream)
    && Passes(def, r.downstream)
    && Offered(r.descriptor.schema) * Hidden(def.policy) == {}
    && Required(r.descriptor.schema) * Hidden(def.policy) == {}
  }

  predicate IndexOk(backends: map<string, Handle>, index: Index) {
    forall key | key in index ::
      index[key].backend in backends && EntryOk(backends[index[key].backend].def, key, index[key])
  }

  lemma RouteOk(id: string, def: BackendDef, tool: Tool)
    requires Passes(def, tool.name)
    ensures EntryOk(def, Route(id, def, tool).exposed, Route(id, def, tool))
  {
    StripHides(tool.schema, Hidden(def.policy));
  }

  lemma {:induction false} FilterPasses(def: BackendDef, tools: seq<Tool>)
    ensures forall t | t in Filter(def, tools) :: Passes(def, t.name)
  {
    if tools != [] {
      FilterPasses(def, tools[1..]);
    }
  }

  /** Adding tools keeps every entry that was there and adds only sound entries of this backend. */
  lemma {:induction false} AddKeepsEntries(index: Index, id: string, def: BackendDef, tools: seq<Tool>)
    requires forall t | t in tools :: Passes(def, t.name)
    ensures
      var added := Add(index, id, def, tools).0;
      && (forall key | key in index :: key in added && added[key] == index[key])
      && (forall key | key in added && key !in index :: added[key].backend == id && EntryOk(def, key, added[key]))
    decreases |tools|
  {
    if tools != [] {
      var routed := Route(id, def, tools[0]);
      if routed.exposed !in index {
        RouteOk(id, def, tools[0]);
        AddKeepsEntries(index[routed.exposed := routed], id, def, tools[1..]);
      }
    }
  }

  /** All entries of one backend. */
  function Entries(index: Index, id: string): Index {
    map key | key in index && index[key].backend == id :: index[key]
  }

  /** Connecting changes only the entries of the backend that connects, collision or not. */
  lemma ConnectKeepsOthers(reg: Reg, id: string, contact: Contact)
    ensures Without(Connect(reg, id, contact).index, id) == Without(reg.index, id)
  {
    if id in reg.backends && contact.Listed? {
      var def := reg.backends[id].def;
      FilterPasses(def, contact.tools);
      AddKeepsEntries(Without(reg.index, id), id, def, Filter(def, contact.tools));
    }
  }

  lemma ConnectKeepsIndex(reg: Reg, id: string, contact: Contact)
    requires IndexOk(reg.backends, reg.index)
    ensures IndexOk(reg.backends, Connect(reg, id, contact).index)
  {
    if id in reg.backends && contact.Listed? {
      var def := reg.backends[id].def;
      FilterPasses(def, contact.tools);
      AddKeepsEntries(Without(reg.index, id), id, def, Filter(def, contact.tools));
    }
  }

  /** Connecting changes no definition. */
  lemma ConnectKeepsBackends(reg: Reg, id: string, contact: Contact)
    ensures
      var backends := Connect(reg, id, contact).backends;
      && backends.Keys == reg.backends.Keys
      && (forall other | other in reg.backends :: backends[other].def == reg.backends[other].def)
      && (forall other | other in reg.backends && other != id :: backends[other] == reg.backends[other])
  {
  }

  lemma DoKeepsIndex(reg: Reg, op: Op)
    requires IndexOk(reg.backends, reg.index)
    ensures IndexOk(Do(reg, op).backends, Do(reg, op).index)
  {
    if op.ConnectTo? {
      ConnectKeepsIndex(reg, op.id, op.contact);
      ConnectKeepsBackends(reg, op.id, op.contact);
    }
  }

  lemma {:induction false} DoAllKeepsIndex(reg: Reg, ops: seq<Op>)
    requires IndexOk(reg.backends, reg.index)
    ensures IndexOk(DoAll(reg, ops).backends, DoAll(reg, ops).index)
    decreases |ops|
  {
    if ops != [] {
      DoKeepsIndex(reg, ops[0]);
      DoAllKeepsIndex(Do(reg, ops[0]), ops[1..]);
    }
  }

  /** Main result: after any operations the index agrees with the definitions of registered backends. */
  lemma IndexAgreesWithDefinitions(ops: seq<Op>, key: string)
    requires key in DoAll(EMPTY, ops).index
    ensures
      var reg := DoAll(EMPTY, ops);
      var r := reg.index[key];
      r.backend in reg.backends && EntryOk(reg.backends[r.backend].def, key, r)
  {
    DoAllKeepsIndex(EMPTY, ops);
  }

  lemma EntriesOfOthers(a: Index, b: Index, id: string, other: string)
    requires Without(a, id) == Without(b, id) && other != id
    ensures Entries(a, other) == Entries(b, other)
  {
    assert Entries(a, other) == Entries(Without(a, id), other);
    assert Entries(b, other) == Entries(Without(b, id), other);
  }

  /** Connecting one backend, collision or not, changes no entry of another and no other backend. */
  lemma ConnectLeavesOthersAlone(reg: Reg, id: string, contact: Contact, other: string)
    requires other != id
    ensures
      var reg' := Connect(reg, id, contact);
      && Entries(reg'.index, other) == Entries(reg.index, other)
      && (other in reg.backends <==> other in reg'.backends)
      && (other in reg.backends ==> reg'.backends[other] == reg.backends[other])
  {
    ConnectKeepsOthers(reg, id, contact);
    ConnectKeepsBackends(reg, id, contact);
    EntriesOfOthers(Connect(reg, id, contact).index, reg.index, id, other);
  }

  /** The exposed names of a list of tools are all different. */
  predicate Distinct(def: BackendDef, tools: seq<Tool>) {
    forall i, j | 0 <= i < j < |tools| :: Exposed(def.namespace, tools[i].name) != Exposed(def.namespace, tools[j].name)
  }

  predicate Fresh(index: Index, def: BackendDef, tools: seq<Tool>) {
    forall i | 0 <= i < |tools| :: Exposed(def.namespace, tools[i].name) !in index
  }

  /** Indexing fails exactly on a name that is taken or listed twice; otherwise every tool is routed. */
  lemma {:induction false} AddSucceedsIff(index: Index, id: string, def: BackendDef, tools: seq<Tool>)
    ensures
      var (added, ok) := Add(index, id, def, tools);
      && (ok <==> Fresh(index, def, tools) && Distinct(def, tools))
      && (ok ==> forall t | t in tools :: Exposed(def.namespace, t.name) in added)
      && (forall key | key in index :: key in added && added[key] == index[key])
      && (ok ==> forall i | 0 <= i < |tools| ::
            added[Exposed(def.namespace, tools[i].name)] == Route(id, def, tools[i]))
    decreases |tools|
  {
    if tools != [] {
      var routed := Route(id, def, tools[0]);
      if routed.exposed !in index {
        var index', rest := index[routed.exposed := routed], tools[1..];
        AddSucceedsIff(index', id, def, rest);
        assert forall i | 0 < i < |tools| :: tools[i] == rest[i - 1];
        assert forall i | 0 <= i < |rest| :: rest[i] == tools[i + 1];
        assert forall t | t in tools :: t == tools[0] || t in rest;
      }
    }
  }

  /** A tool that the backend's configuration lets through. */
  predicate Wanted(def: BackendDef, name: string) {
    (|def.allow| == 0 || exists a | a in def.allow :: a == name) && forall d | d in def.deny :: d != name
  }

  /** The tool is indexed under its exposed name, as the backend lists it but for the hidden arguments. */
  predicate IsRouted(index: Index, id: string, def: BackendDef, tool: Tool) {
    var name := Exposed(def.namespace, tool.name);
    && name in index
    && index[name].backend == id && index[name].exposed == name && index[name].downstream == tool.name
    && index[name].descriptor.name == name && index[name].descriptor.description == tool.description
    && index[name].descriptor.schema == Strip(tool.schema, Hidden(def.policy))
  }

  lemma {:induction false} FilterKeeps(def: BackendDef, tools: seq<Tool>, tool: Tool)
    ensures tool in Filter(def, tools) <==> tool in tools && Wanted(def, tool.name)
  {
    if tools != [] {
      FilterKeeps(def, tools[1..], tool);
      assert tool in tools <==> tool == tools[0] || tool in tools[1..];
    }
  }

  /** The tools that are let through have different names. */
  predicate WantedDiffer(def: BackendDef, tools: seq<Tool>) {
    forall i, j | 0 <= i < j < |tools| && Wanted(def, tools[i].name) && Wanted(def, tools[j].name) ::
      tools[i].name != tools[j].name
  }

  lemma ExposedDiffer(namespace: Option<string>, a: string, b: string)
    requires a != b
    ensures Exposed(namespace, a) != Exposed(namespace, b)
  {
    if namespace.Some? {
      var n := |namespace.value| + 1;
      assert a == Exposed(namespace, a)[n..] && b == Exposed(namespace, b)[n..];
    }
  }

  lemma PassesIfWanted(def: BackendDef, name: string)
    ensures Passes(def, name) <==> Wanted(def, name)
  {
  }

  lemma WantedDifferOn(def: BackendDef, tools: seq<Tool>)
    requires tools != []
    ensures
      WantedDiffer(def, tools) <==>
        && WantedDiffer(def, tools[1..])
        && (Wanted(def, tools[0].name) ==>
              forall t | t in tools[1..] && Wanted(def, t.name) :: t.name != tools[0].name)
  {
    var rest := tools[1..];
    assert forall i | 0 <= i < |rest| :: rest[i] == tools[i + 1];
    assert forall i | 0 < i < |tools| :: tools[i] == rest[i - 1] && tools[i] in rest;
    if WantedDiffer(def, tools) {
      forall i, j | 0 <= i < j < |rest| && Wanted(def, rest[i].name) && Wanted(def, rest[j].name)
        ensures rest[i].name != rest[j].name
      {
        assert tools[i + 1].name != tools[j + 1].name;
      }
    }
  }

  lemma {:induction false} DistinctFilter(def: BackendDef, tools: seq<Tool>)
    ensures Distinct(def, Filter(def, tools)) <==> WantedDiffer(def, tools)
  {
    if tools != [] {
      var first, rest := tools[0], Filter(def, tools[1..]);
      DistinctFilter(def, tools[1..]);
      WantedDifferOn(def, tools);
      PassesIfWanted(def, first.name);
      forall t
        ensures t in rest <==> t in tools[1..] && Wanted(def, t.name)
      {
        FilterKeeps(def, tools[1..], t);
      }
      if Wanted(def, first.name) {
        DistinctWithFirst(def, first, rest);
      } else {
        assert Filter(def, tools) == rest;
      }
    }
  }

  lemma DistinctWithFirst(def: BackendDef, first: Tool, rest: seq<Tool>)
    ensures
      Distinct(def, [first] + rest) <==> Distinct(def, rest) && forall t | t in rest :: t.name != first.name
  {
    var all := [first] + rest;
    assert forall i | 0 <= i < |rest| :: all[i + 1] == rest[i];
    if Distinct(def, rest) && forall t | t in rest :: t.name != first.name {
      forall i, j | 0 <= i < j < |all|
        ensures Exposed(def.namespace, all[i].name) != Exposed(def.namespace, all[j].name)
      {
        assert all[j] in rest;
        if i == 0 {
          ExposedDiffer(def.namespace, all[0].name, all[j].name);
        }
      }
    }
    if Distinct(def, all) {
      forall t | t in rest
        ensures t.name != first.name
      {
        var j :| 0 <= j < |rest| && rest[j] == t;
        assert all[0] == first && all[j + 1] == t;
      }
      assert forall i, j | 0 <= i < j < |rest| :: all[i + 1] == rest[i] && all[j + 1] == rest[j];
    }
  }

  /**
   Main result: connecting succeeds if and only if the tools that are let through have different names,
   none of which another backend has taken.
   */
  lemma ConnectSucceedsIff(reg: Reg, id: string, contact: Contact)
    requires id in reg.backends && contact.Listed?
    ensures
      var def := reg.backends[id].def;
      Connects(reg, id, contact) <==>
        && WantedDiffer(def, contact.tools)
        && forall t | t in contact.tools && Wanted(def, t.name) ::
             Exposed(def.namespace, t.name) in reg.index ==> reg.index[Exposed(def.namespace, t.name)].backend == id
  {
    var def := reg.backends[id].def;
    var kept := Filter(def, contact.tools);
    AddSucceedsIff(Without(reg.index, id), id, def, kept);
    DistinctFilter(def, contact.tools);
    forall t
      ensures t in kept <==> t in contact.tools && Wanted(def, t.name)
    {
      FilterKeeps(def, contact.tools, t);
    }
  }

  /** Main result: after that, exactly these tools are indexed for the backend, and it is healthy. */
  lemma ConnectIndexesTools(reg: Reg, id: string, contact: Contact)
    requires Connects(reg, id, contact)
    ensures
      var reg' := Connect(reg, id, contact);
      var def := reg.backends[id].def;
      && id in reg'.backends && reg'.backends[id] == Handle(def, true, Some(contact.events), 0)
      && (forall tool | tool in contact.tools && Wanted(def, tool.name) :: IsRouted(reg'.index, id, def, tool))
      && (forall key | key in reg'.index && reg'.index[key].backend == id ::
            exists tool | tool in contact.tools :: Wanted(def, tool.name) && key == Exposed(def.namespace, tool.name))
  {
    var def := reg.backends[id].def;
    var base, kept := Without(reg.index, id), Filter(def, contact.tools);
    AddSucceedsIff(base, id, def, kept);
    AddKeepsKeysOf(base, id, def, kept);
    forall tool | tool in contact.tools && Wanted(def, tool.name)
      ensures IsRouted(Connect(reg, id, contact).index, id, def, tool)
    {
      FilterKeeps(def, contact.tools, tool);
      var i :| 0 <= i < |kept| && kept[i] == tool;
    }
    forall key | key in Connect(reg, id, contact).index && Connect(reg, id, contact).index[key].backend == id
      ensures exists tool | tool in contact.tools :: Wanted(def, tool.name) && key == Exposed(def.namespace, tool.name)
    {
      assert key !in base;
      var i :| 0 <= i < |kept| && Exposed(def.namespace, kept[i].name) == key;
      FilterKeeps(def, contact.tools, kept[i]);
    }
  }

  /** A new key is the exposed name of one of the tools. */
  lemma {:induction false} AddKeepsKeysOf(index: Index, id: string, def: BackendDef, tools: seq<Tool>)
    ensures
      var added := Add(index, id, def, tools).0;
      && (forall key | key in index :: key in added && added[key] == index[key])
      && (forall key | key in added && key !in index ::
            exists i | 0 <= i < |tools| :: Exposed(def.namespace, tools[i].name) == key)
    decreases |tools|
  {
    if tools != [] {
      var routed := Route(id, def, tools[0]);
      if routed.exposed !in index {
        AddKeepsKeysOf(index[routed.exposed := routed], id, def, tools[1..]);
        forall key | key in Add(index, id, def, tools).0 && key !in index
          ensures exists i | 0 <= i < |tools| :: Exposed(def.namespace, tools[i].name) == key
        {
          if key == routed.exposed {
            assert Exposed(def.namespace, tools[0].name) == key;
          } else {
            var i :| 0 <= i < |tools[1..]| && Exposed(def.namespace, tools[1..][i].name) == key;
            assert tools[i + 1] == tools[1..][i];
          }
        }
      }
    }
  }

  /** What a connection that fails leaves behind. */
  lemma FailedConnectKeepsHealth(reg: Reg, id: string, contact: Contact)
    requires id in reg.backends && !Connects(reg, id, contact)
    ensures
      var h, h' := reg.backends[id], Connect(reg, id, contact).backends[id];
      && h'.healthy == h.healthy && h'.attempts == h.attempts && h'.def == h.def
      && h'.events == if contact.Refused? then h.events else Some(contact.events)
    ensures !contact.Listed? ==> Connect(reg, id, contact).index == reg.index
  {
  }

  /** After a collision, exactly the tools before the first one that collides are indexed. */
  lemma {:induction false} AddStops(index: Index, id: string, def: BackendDef, tools: seq<Tool>) returns (n: nat)
    ensures n <= |tools|
    ensures
      var (added, ok) := Add(index, id, def, tools);
      && Fresh(index, def, tools[..n]) && Distinct(def, tools[..n])
      && (ok <==> n == |tools|)
      && (n < |tools| ==> Exposed(def.namespace, tools[n].name) in added)
      && added == Add(index, id, def, tools[..n]).0 && Add(index, id, def, tools[..n]).1
    decreases |tools|
  {
    n := 0;
    if tools != [] {
      var routed := Route(id, def, tools[0]);
      if routed.exposed !in index {
        var m := AddStops(index[routed.exposed := routed], id, def, tools[1..]);
        n := m + 1;
        assert tools[..n][1..] == tools[1..][..m];
        assert tools[..n][0] == tools[0];
        AddSucceedsIff(index, id, def, tools[..n]);
      }
    }
  }

  // ---- calls ----

  datatype Call = NoSuchTool | NotRegistered | Denied | Dispatch(backend: string, downstream: string, args: Option<Json>)

  /** The look-up part of `route_call_with`. */
  function RouteCall(reg: Reg, exposed: string, args: Option<Json>): Call {
    if exposed !in reg.index then NoSuchTool
    else if reg.index[exposed].backend !in reg.backends then NotRegistered
    else
      var routed := reg.index[exposed];
      match Apply(reg.backends[routed.backend].def.policy, args)
      case Reject => Denied
      case Forward(out) => Dispatch(routed.backend, routed.downstream, out)
  }

  /**
   After any operations, an indexed call never meets a missing backend, and with arguments from the
   advertised schema, or none, it is dispatched under the downstream name that its exposed name stands
   for, with the pinned arguments set.
   */
  lemma CallsReachTheirBackend(ops: seq<Op>, exposed: string, args: Option<Json>)
    requires exposed in DoAll(EMPTY, ops).index
    requires
      Given(args).Some?
      && Given(args).value.Keys <= Offered(DoAll(EMPTY, ops).index[exposed].descriptor.schema)
    ensures
      var reg := DoAll(EMPTY, ops);
      var call := RouteCall(reg, exposed, args);
      && call.Dispatch? && call.backend in reg.backends
      && var def := reg.backends[call.backend].def;
         && exposed == Exposed(def.namespace, call.downstream)
         && Passes(def, call.downstream)
         && call.args == if HasPolicy(def.policy) then Some(Obj(Given(args).value + def.policy.pin)) else args
  {
    DoAllKeepsIndex(EMPTY, ops);
    var reg := DoAll(EMPTY, ops);
    var routed := reg.index[exposed];
    var policy := reg.backends[routed.backend].def.policy;
    StripHides(routed.descriptor.schema, Hidden(policy));
    var offered := Offered(routed.descriptor.schema);
    assert forall k | k in offered :: k !in Hidden(policy) || k in offered * Hidden(policy);
    OfferedArgumentsPass(policy, routed.descriptor.schema, args);
  }

  /** After any operations, a call fails before it is sent exactly if its name is not indexed or the policy rejects it. */
  lemma CallsFailIff(ops: seq<Op>, exposed: string, args: Option<Json>)
    ensures
      var reg := DoAll(EMPTY, ops);
      var call := RouteCall(reg, exposed, args);
      && (call == NoSuchTool <==> exposed !in reg.index)
      && (call == Denied <==>
            exposed in reg.index && reg.index[exposed].backend in reg.backends
            && Apply(reg.backends[reg.index[exposed].backend].def.policy, args) == Reject)
      && call != NotRegistered
  {
    DoAllKeepsIndex(EMPTY, ops);
  }
}
