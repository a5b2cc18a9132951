/**
 Namespaces that do not start one another keep backends apart: no collisions, the same index in
 every connection order, one owner per name, and event names that find their way back.
 */
module Namespaces {
  import opened Options
  import opened Registry
  import opened RegistryIndex

  function Dotted(namespace: string): string {
    namespace + "."
  }

  lemma ExposedStartsDotted(namespace: string, name: string)
    ensures Dotted(namespace) <= Exposed(Some(namespace), name)
    ensures Exposed(Some(namespace), name)[|namespace| + 1..] == name
  {
  }

  lemma PrefixesOfOne(a: string, b: string, s: string)
    requires a <= s && b <= s
    ensures a <= b || b <= a
  {
  }

  /** Two namespaces can give the same exposed name exactly when one, with its dot, starts the other. */
  lemma CollisionPossibleIff(a: string, b: string)
    ensures
      (exists s, t :: Exposed(Some(a), s) == Exposed(Some(b), t)) <==> Dotted(a) <= Dotted(b) || Dotted(b) <= Dotted(a)
  {
    if exists s, t :: Exposed(Some(a), s) == Exposed(Some(b), t) {
      var s, t :| Exposed(Some(a), s) == Exposed(Some(b), t);
      ExposedStartsDotted(a, s);
      ExposedStartsDotted(b, t);
      PrefixesOfOne(Dotted(a), Dotted(b), Exposed(Some(a), s));
    }
    if Dotted(a) <= Dotted(b) {
      assert Exposed(Some(a), Dotted(b)[|a| + 1..]) == Exposed(Some(b), "");
    }
    if Dotted(b) <= Dotted(a) {
      assert Exposed(Some(a), "") == Exposed(Some(b), Dotted(a)[|b| + 1..]);
    }
  }

  /** No namespace starts another's; backends without one are left aside. */
  predicate NamespacesApart(backends: map<string, Handle>) {
    forall id, other | id in backends && other in backends && id != other ::
      backends[id].def.namespace.Some? && backends[other].def.namespace.Some?
      ==> !(Dotted(backends[id].def.namespace.value) <= Dotted(backends[other].def.namespace.value))
  }

  /** Moreover every backend has a namespace. */
  predicate Apart(backends: map<string, Handle>) {
    NamespacesApart(backends) && forall id | id in backends :: backends[id].def.namespace.Some?
  }

  predicate Owns(def: BackendDef, name: string) {
    def.namespace.Some? && Dotted(def.namespace.value) <= name
  }

  lemma OneOwner(backends: map<string, Handle>, id: string, other: string, name: string)
    requires NamespacesApart(backends) && id in backends && other in backends
    requires Owns(backends[id].def, name) && Owns(backends[other].def, name)
    ensures id == other
  {
    PrefixesOfOne(Dotted(backends[id].def.namespace.value), Dotted(backends[other].def.namespace.value), name);
  }

  lemma EntryIsOwned(reg: Reg, key: string)
    requires IndexOk(reg.backends, reg.index) && Apart(reg.backends) && key in reg.index
    ensures Owns(reg.backends[reg.index[key].backend].def, key)
  {
    var r := reg.index[key];
    ExposedStartsDotted(reg.backends[r.backend].def.namespace.value, r.downstream);
  }

  // ---- connection order ----

  /** What a backend's tools make of an empty index. */
  function Own(id: string, def: BackendDef, contact: Contact): (Index, bool)
    requires contact.Listed?
  {
    Add(map[], id, def, Filter(def, contact.tools))
  }

  /** Entries that a list of tools does not claim make no difference to indexing it. */
  lemma {:induction false} AddBeside(base: Index, own: Index, id: string, def: BackendDef, tools: seq<Tool>)
    requires base.Keys !! Add(own, id, def, tools).0.Keys
    ensures Add(base + own, id, def, tools) == (base + Add(own, id, def, tools).0, Add(own, id, def, tools).1)
    decreases |tools|
  {
    if tools != [] {
      var routed := Route(id, def, tools[0]);
      if routed.exposed !in own {
        var own' := own[routed.exposed := routed];
        AddKeepsKeys(own', id, def, tools[1..]);
        assert (base + own)[routed.exposed := routed] == base + own';
        AddBeside(base, own', id, def, tools[1..]);
      }
    }
  }

  lemma {:induction false} AddKeepsKeys(index: Index, id: string, def: BackendDef, tools: seq<Tool>)
    ensures index.Keys <= Add(index, id, def, tools).0.Keys
    decreases |tools|
  {
    if tools != [] && Route(id, def, tools[0]).exposed !in index {
      AddKeepsKeys(index[Route(id, def, tools[0]).exposed := Route(id, def, tools[0])], id, def, tools[1..]);
    }
  }

  /** A backend's handle and entries after it connects, whatever the other backends have indexed. */
  function HandleAfter(h: Handle, id: string, contact: Contact): Handle {
    if contact.Refused? then h
    else
      var h' := h.(events := Some(contact.events));
      if contact.Listed? && Own(id, h.def, contact).1 then h'.(healthy := true, attempts := 0) else h'
  }

  function EntriesAfter(index: Index, h: Handle, id: string, contact: Contact): Index {
    if contact.Listed? then Own(id, h.def, contact).0 else Entries(index, id)
  }

  /** The names that a backend's tools take. */
  function Claims(id: string, def: BackendDef, contact: Contact): set<string> {
    if contact.Listed? then Own(id, def, contact).0.Keys else {}
  }

  lemma OwnIsOwn(id: string, def: BackendDef, contact: Contact)
    requires contact.Listed?
    ensures
      var own := Own(id, def, contact).0;
      forall key | key in own :: own[key].backend == id && EntryOk(def, key, own[key])
  {
    FilterPasses(def, contact.tools);
    AddKeepsEntries(map[], id, def, Filter(def, contact.tools));
  }

  /** Where no other entry is in the way, connecting a backend depends on the backend alone. */
  lemma ConnectIsLocal(reg: Reg, id: string, contact: Contact)
    requires id in reg.backends && Claims(id, reg.backends[id].def, contact) !! Without(reg.index, id).Keys
    ensures Connect(reg, id, contact).backends == reg.backends[id := HandleAfter(reg.backends[id], id, contact)]
    ensures Entries(Connect(reg, id, contact).index, id) == EntriesAfter(reg.index, reg.backends[id], id, contact)
    ensures contact.Listed? ==>
      Connect(reg, id, contact).index == Without(reg.index, id) + Own(id, reg.backends[id].def, contact).0
  {
    if contact.Listed? {
      var def, base := reg.backends[id].def, Without(reg.index, id);
      AddBeside(base, map[], id, def, Filter(def, contact.tools));
      assert base + map[] == base;
      OwnIsOwn(id, def, contact);
      EntriesOfSum(base, Own(id, def, contact).0, id);
    } else if contact.Refused? {
      assert reg.backends[id := reg.backends[id]] == reg.backends;
    }
  }

  lemma EntriesOfSum(base: Index, own: Index, id: string)
    requires forall key | key in base :: base[key].backend != id
    requires forall key | key in own :: own[key].backend == id
    ensures Entries(base + own, id) == own
  {
  }

  /** Connecting backends one after the other. */
  function ConnectEach(reg: Reg, order: seq<string>, contacts: map<string, Contact>): Reg
    requires forall id | id in order :: id in contacts
    decreases |order|
  {
    if order == [] then reg else ConnectEach(Connect(reg, order[0], contacts[order[0]]), order[1..], contacts)
  }

  predicate NoRepeats(order: seq<string>) {
    forall i, j | 0 <= i < j < |order| :: order[i] != order[j]
  }

  /** The backends of `order` claim no name twice, and none that another backend has indexed. */
  predicate Undisturbed(reg: Reg, order: seq<string>, contacts: map<string, Contact>)
    requires forall o | o in order :: o in contacts && o in reg.backends
  {
    && (forall id | id in order :: Claims(id, reg.backends[id].def, contacts[id]) !! Without(reg.index, id).Keys)
    && (forall id, other | id in order && other in order && id != other ::
          Claims(id, reg.backends[id].def, contacts[id]) !! Claims(other, reg.backends[other].def, contacts[other]))
  }

  lemma StillUndisturbed(reg: Reg, order: seq<string>, contacts: map<string, Contact>)
    requires order != [] && NoRepeats(order)
    requires forall o | o in order :: o in contacts && o in reg.backends
    requires Undisturbed(reg, order, contacts)
    ensures
      var reg' := Connect(reg, order[0], contacts[order[0]]);
      reg'.backends.Keys == reg.backends.Keys && Undisturbed(reg', order[1..], contacts)
  {
    var first := order[0];
    var reg' := Connect(reg, first, contacts[first]);
    ConnectKeepsBackends(reg, first, contacts[first]);
    ConnectIsLocal(reg, first, contacts[first]);
    forall id | id in order[1..]
      ensures Claims(id, reg'.backends[id].def, contacts[id]) !! Without(reg'.index, id).Keys
    {
      assert id in order && id != first;
      assert Without(reg'.index, id).Keys
          <= Without(reg.index, id).Keys + Claims(first, reg.backends[first].def, contacts[first]);
    }
  }

  lemma {:induction false} EachIsLocal(reg: Reg, order: seq<string>, contacts: map<string, Contact>, id: string)
    requires IndexOk(reg.backends, reg.index) && NoRepeats(order)
    requires forall o | o in order :: o in contacts && o in reg.backends
    requires Undisturbed(reg, order, contacts)
    requires id in reg.backends
    ensures
      var reg' := ConnectEach(reg, order, contacts);
      && reg'.backends.Keys == reg.backends.Keys && IndexOk(reg'.backends, reg'.index)
      && reg'.backends[id] ==
           (if id in order then HandleAfter(reg.backends[id], id, contacts[id]) else reg.backends[id])
      && Entries(reg'.index, id) ==
           (if id in order then EntriesAfter(reg.index, reg.backends[id], id, contacts[id]) else Entries(reg.index, id))
    decreases |order|
  {
    if order != [] {
      var first := order[0];
      var reg1 := Connect(reg, first, contacts[first]);
      ConnectIsLocal(reg, first, contacts[first]);
      StillUndisturbed(reg, order, contacts);
      ConnectKeepsBackends(reg, first, contacts[first]);
      ConnectKeepsIndex(reg, first, contacts[first]);
      if id != first {
        ConnectLeavesOthersAlone(reg, first, contacts[first], id);
      }
      EachIsLocal(reg1, order[1..], contacts, id);
      assert id in order <==> id == first || id in order[1..];
    }
  }

  predicate SameSet(a: seq<string>, b: seq<string>) {
    (forall id | id in a :: id in b) && (forall id | id in b :: id in a)
  }

  /** Two registries have the same backends and say the same about one of them. */
  predicate Agree(a: Reg, b: Reg, id: string) {
    && a.backends.Keys == b.backends.Keys && IndexOk(a.backends, a.index) && IndexOk(b.backends, b.index)
    && (id in a.backends ==> a.backends[id] == b.backends[id] && Entries(a.index, id) == Entries(b.index, id))
  }

  lemma EachBackendAgrees(reg: Reg, a: seq<string>, b: seq<string>, contacts: map<string, Contact>, id: string)
    requires IndexOk(reg.backends, reg.index) && NoRepeats(a) && NoRepeats(b) && SameSet(a, b)
    requires forall o | o in a :: o in contacts && o in reg.backends
    requires Undisturbed(reg, a, contacts)
    requires id in reg.backends
    ensures Agree(ConnectEach(reg, a, contacts), ConnectEach(reg, b, contacts), id)
    ensures ConnectEach(reg, a, contacts).backends.Keys == reg.backends.Keys
  {
    EachIsLocal(reg, a, contacts, id);
    EachIsLocal(reg, b, contacts, id);
  }

  lemma AgreementIsEquality(a: Reg, b: Reg)
    requires a.backends.Keys != {} && forall id | id in a.backends :: Agree(a, b, id)
    ensures a == b
  {
    var some :| some in a.backends.Keys;
    assert Agree(a, b, some);
    forall key | key in a.index
      ensures key in b.index && a.index[key] == b.index[key]
    {
      assert Agree(a, b, a.index[key].backend);
      assert key in Entries(a.index, a.index[key].backend);
    }
    forall key | key in b.index
      ensures key in a.index
    {
      assert Agree(a, b, b.index[key].backend);
      assert key in Entries(b.index, b.index[key].backend);
    }
  }

  lemma NothingToConnect(reg: Reg, order: seq<string>, contacts: map<string, Contact>)
    requires reg.backends.Keys == {} && forall id | id in order :: id in contacts && id in reg.backends
    ensures ConnectEach(reg, order, contacts) == reg
  {
  }

  /** Backends whose tools do not clash give the same registry in every order. */
  lemma OrderDoesNotMatter(reg: Reg, a: seq<string>, b: seq<string>, contacts: map<string, Contact>)
    requires IndexOk(reg.backends, reg.index) && NoRepeats(a) && NoRepeats(b) && SameSet(a, b)
    requires forall id | id in a :: id in contacts && id in reg.backends
    requires Undisturbed(reg, a, contacts)
    ensures ConnectEach(reg, a, contacts) == ConnectEach(reg, b, contacts)
  {
    if reg.backends.Keys == {} {
      NothingToConnect(reg, a, contacts);
      NothingToConnect(reg, b, contacts);
    } else {
      var some :| some in reg.backends.Keys;
      EachBackendAgrees(reg, a, b, contacts, some);
      forall id | id in reg.backends
        ensures Agree(ConnectEach(reg, a, contacts), ConnectEach(reg, b, contacts), id)
      {
        EachBackendAgrees(reg, a, b, contacts, id);
      }
      AgreementIsEquality(ConnectEach(reg, a, contacts), ConnectEach(reg, b, contacts));
    }
  }

  /** Namespaces that do not start one another keep any tools from clashing. */
  lemma ApartIsUndisturbed(reg: Reg, order: seq<string>, contacts: map<string, Contact>)
    requires IndexOk(reg.backends, reg.index) && Apart(reg.backends)
    requires forall id | id in order :: id in contacts && id in reg.backends
    ensures Undisturbed(reg, order, contacts)
  {
    forall id, key | id in order && key in Claims(id, reg.backends[id].def, contacts[id])
      ensures Owns(reg.backends[id].def, key)
    {
      ClaimIsOwned(id, reg.backends[id].def, contacts[id], key);
    }
    forall id, key | id in order && key in Claims(id, reg.backends[id].def, contacts[id])
      ensures key !in Without(reg.index, id)
    {
      if key in reg.index {
        EntryIsOwned(reg, key);
        OneOwner(reg.backends, id, reg.index[key].backend, key);
      }
    }
    forall id, other, key | id in order && other in order && key in Claims(id, reg.backends[id].def, contacts[id])
                            && key in Claims(other, reg.backends[other].def, contacts[other])
      ensures id == other
    {
      OneOwner(reg.backends, id, other, key);
    }
  }

  lemma ClaimIsOwned(id: string, def: BackendDef, contact: Contact, key: string)
    requires def.namespace.Some? && key in Claims(id, def, contact)
    ensures Owns(def, key)
  {
    OwnIsOwn(id, def, contact);
    ExposedStartsDotted(def.namespace.value, Own(id, def, contact).0[key].downstream);
  }

  /** So backends that are kept apart can be connected in any order, whatever tools they list. */
  lemma ApartInAnyOrder(reg: Reg, a: seq<string>, b: seq<string>, contacts: map<string, Contact>)
    requires IndexOk(reg.backends, reg.index) && Apart(reg.backends) && NoRepeats(a) && NoRepeats(b) && SameSet(a, b)
    requires forall id | id in a :: id in contacts && id in reg.backends
    ensures ConnectEach(reg, a, contacts) == ConnectEach(reg, b, contacts)
  {
    ApartIsUndisturbed(reg, a, contacts);
    OrderDoesNotMatter(reg, a, b, contacts);
  }

  // A clash does matter: whoever comes first keeps the name.

  lemma {:induction false} LaterOnesLeaveAlone(reg: Reg, order: seq<string>, contacts: map<string, Contact>, id: string)
    requires id !in order && forall o | o in order :: o in contacts
    ensures Entries(ConnectEach(reg, order, contacts).index, id) == Entries(reg.index, id)
    decreases |order|
  {
    if order != [] {
      ConnectLeavesOthersAlone(reg, order[0], contacts[order[0]], id);
      LaterOnesLeaveAlone(Connect(reg, order[0], contacts[order[0]]), order[1..], contacts, id);
    }
  }

  /** What is indexed in the end was indexed before, or belongs to one of those that connected. */
  lemma {:induction false} EntriesComeFrom(reg: Reg, order: seq<string>, contacts: map<string, Contact>, key: string)
    requires forall o | o in order :: o in contacts
    requires key in ConnectEach(reg, order, contacts).index
    ensures
      var entry := ConnectEach(reg, order, contacts).index[key];
      entry.backend in order || (key in reg.index && reg.index[key] == entry)
    decreases |order|
  {
    if order != [] {
      var reg' := Connect(reg, order[0], contacts[order[0]]);
      EntriesComeFrom(reg', order[1..], contacts, key);
      ConnectKeepsOthers(reg, order[0], contacts[order[0]]);
      assert key in reg'.index && reg'.index[key].backend != order[0] ==> key in Without(reg'.index, order[0]);
    }
  }

  lemma FirstKeepsName(reg: Reg, id: string, order: seq<string>, contacts: map<string, Contact>, key: string)
    requires reg.index == map[] && id !in order && id in reg.backends
    requires forall o | o in [id] + order :: o in contacts
    requires key in Claims(id, reg.backends[id].def, contacts[id])
    ensures
      var index := ConnectEach(reg, [id] + order, contacts).index;
      key in index && index[key].backend == id
  {
    assert ([id] + order)[1..] == order;
    var reg' := Connect(reg, id, contacts[id]);
    ConnectIsLocal(reg, id, contacts[id]);
    LaterOnesLeaveAlone(reg', order, contacts, id);
    assert key in Entries(reg'.index, id);
    assert key in Entries(ConnectEach(reg', order, contacts).index, id);
  }

  function Others(order: seq<string>, id: string): (rest: seq<string>)
    ensures forall o :: o in rest <==> o in order && o != id
  {
    if order == [] then []
    else
      assert order == [order[0]] + order[1..];
      (if order[0] == id then [] else [order[0]]) + Others(order[1..], id)
  }

  lemma InFrontDoesNotRepeat(first: string, rest: seq<string>)
    requires NoRepeats(rest) && first !in rest
    ensures NoRepeats([first] + rest)
  {
    assert forall i | 0 < i < |rest| + 1 :: ([first] + rest)[i] == rest[i - 1];
  }

  lemma {:induction false} OthersDoNotRepeat(order: seq<string>, id: string)
    requires NoRepeats(order)
    ensures NoRepeats(Others(order, id))
  {
    if order != [] {
      OthersDoNotRepeat(order[1..], id);
      assert order[0] !in order[1..];
      InFrontDoesNotRepeat(order[0], Others(order[1..], id));
      assert [] + Others(order[1..], id) == Others(order[1..], id);
    }
  }

  predicate Rearranged(a: seq<string>, order: seq<string>) {
    NoRepeats(a) && SameSet(a, order)
  }

  ghost predicate SameInEveryOrder(reg: Reg, order: seq<string>, contacts: map<string, Contact>)
    requires forall id | id in order :: id in contacts
  {
    forall a, b | Rearranged(a, order) && Rearranged(b, order) ::
      ConnectEach(reg, a, contacts) == ConnectEach(reg, b, contacts)
  }

  /** Some order in which a backend comes first. */
  lemma FirstInSomeOrder(reg: Reg, order: seq<string>, contacts: map<string, Contact>, id: string, key: string)
    requires reg.index == map[] && NoRepeats(order) && id in order
    requires forall o | o in order :: o in contacts && o in reg.backends
    requires key in Claims(id, reg.backends[id].def, contacts[id])
    ensures
      var a := [id] + Others(order, id);
      && Rearranged(a, order)
      && var index := ConnectEach(reg, a, contacts).index;
         key in index && index[key].backend == id
  {
    OthersDoNotRepeat(order, id);
    InFrontDoesNotRepeat(id, Others(order, id));
    FirstKeepsName(reg, id, Others(order, id), contacts, key);
  }

  lemma OrdersDiffer(reg: Reg, order: seq<string>, contacts: map<string, Contact>, a: seq<string>, b: seq<string>)
    requires forall id | id in order :: id in contacts
    requires Rearranged(a, order) && Rearranged(b, order)
    requires ConnectEach(reg, a, contacts) != ConnectEach(reg, b, contacts)
    ensures !SameInEveryOrder(reg, order, contacts)
  {
  }

  lemma ClashShowsInOrder(reg: Reg, order: seq<string>, contacts: map<string, Contact>, id: string, other: string, key: string)
    requires reg.index == map[] && NoRepeats(order) && id in order && other in order && id != other
    requires forall o | o in order :: o in contacts && o in reg.backends
    requires key in Claims(id, reg.backends[id].def, contacts[id])
    requires key in Claims(other, reg.backends[other].def, contacts[other])
    ensures !SameInEveryOrder(reg, order, contacts)
  {
    FirstInSomeOrder(reg, order, contacts, id, key);
    FirstInSomeOrder(reg, order, contacts, other, key);
    var a, b := [id] + Others(order, id), [other] + Others(order, other);
    assert ConnectEach(reg, a, contacts).index[key].backend != ConnectEach(reg, b, contacts).index[key].backend;
    OrdersDiffer(reg, order, contacts, a, b);
  }

  /** Main result: from an empty index, the order does not matter if and only if no two backends claim a name. */
  lemma OrderMattersIff(reg: Reg, order: seq<string>, contacts: map<string, Contact>)
    requires reg.index == map[] && NoRepeats(order)
    requires forall id | id in order :: id in contacts && id in reg.backends
    ensures SameInEveryOrder(reg, order, contacts) <==> Undisturbed(reg, order, contacts)
  {
    if Undisturbed(reg, order, contacts) {
      forall a, b | Rearranged(a, order) && Rearranged(b, order)
        ensures ConnectEach(reg, a, contacts) == ConnectEach(reg, b, contacts)
      {
        assert Undisturbed(reg, a, contacts);
        OrderDoesNotMatter(reg, a, b, contacts);
      }
    } else {
      var id, other, key :| id in order && other in order && id != other
                            && key in Claims(id, reg.backends[id].def, contacts[id])
                            && key in Claims(other, reg.backends[other].def, contacts[other]);
      ClashShowsInOrder(reg, order, contacts, id, other, key);
    }
  }

  // ---- owners ----

  function FirstOwner(backends: map<string, Handle>, order: seq<string>, name: string): Option<string>
    requires forall id | id in order :: id in backends
  {
    if order == [] then None
    else if Owns(backends[order[0]].def, name) then Some(order[0])
    else FirstOwner(backends, order[1..], name)
  }

  /** `backend_of_tool`, with the order in which the map of backends is walked. */
  function BackendOfTool(reg: Reg, order: seq<string>, name: string): Option<string>
    requires forall id | id in order :: id in reg.backends
  {
    if name in reg.index then Some(reg.index[name].backend) else FirstOwner(reg.backends, order, name)
  }

  lemma {:induction false} FirstOwnerIs(backends: map<string, Handle>, order: seq<string>, name: string, id: string)
    requires NamespacesApart(backends) && forall o | o in order :: o in backends
    requires id in backends
    ensures FirstOwner(backends, order, name) == Some(id) <==> id in order && Owns(backends[id].def, name)
  {
    if order != [] {
      FirstOwnerIs(backends, order[1..], name, id);
      assert id in order <==> id == order[0] || id in order[1..];
      if Owns(backends[order[0]].def, name) && Owns(backends[id].def, name) {
        OneOwner(backends, order[0], id, name);
      }
    }
  }

  /** Main result: a name that is not indexed belongs in every order to the one backend whose namespace starts it. */
  lemma OwnerOfUnindexed(reg: Reg, order: seq<string>, name: string, id: string)
    requires NamespacesApart(reg.backends) && id in reg.backends && name !in reg.index
    requires forall o :: o in order <==> o in reg.backends
    ensures BackendOfTool(reg, order, name) == Some(id) <==> Owns(reg.backends[id].def, name)
  {
    FirstOwnerIs(reg.backends, order, name, id);
  }

  /** If every backend has a namespace, that goes for indexed names too. */
  lemma OwnerIsNamespace(reg: Reg, order: seq<string>, name: string, id: string)
    requires IndexOk(reg.backends, reg.index) && Apart(reg.backends) && id in reg.backends
    requires forall o :: o in order <==> o in reg.backends
    ensures BackendOfTool(reg, order, name) == Some(id) <==> Owns(reg.backends[id].def, name)
  {
    if name in reg.index {
      EntryIsOwned(reg, name);
      if Owns(reg.backends[id].def, name) {
        OneOwner(reg.backends, id, reg.index[name].backend, name);
      }
    } else {
      OwnerOfUnindexed(reg, order, name, id);
    }
  }

  // ---- events ----

  /** The search of `events/subscribe` for a backend, among those with events in order. */
  function EventTarget(backends: map<string, Handle>, ids: seq<string>, name: string): Option<(string, string)>
    requires forall id | id in ids :: id in backends
  {
    if ids == [] then None
    else
      var namespace := backends[ids[0]].def.namespace;
      if namespace.None? then Some((ids[0], name))
      else if Dotted(namespace.value) <= name then Some((ids[0], name[|namespace.value| + 1..]))
      else EventTarget(backends, ids[1..], name)
  }

  /** The names that `events/list` collects. */
  method EventsList(backends: map<string, Handle>, ids: seq<string>, names: map<string, seq<string>>) returns (all: seq<string>)
    requires forall id | id in ids :: id in backends
    ensures
      forall e | e in all ::
        exists id, name | id in ids && id in names && name in names[id] :: e == Exposed(backends[id].def.namespace, name)
    ensures
      forall id, name | id in ids && id in names && name in names[id] :: Exposed(backends[id].def.namespace, name) in all
  {
    all := [];
    for i := 0 to |ids|
      invariant forall e | e in all ::
          exists id, name | id in ids && id in names && name in names[id] :: e == Exposed(backends[id].def.namespace, name)
      invariant forall id, name | id in ids[..i] && id in names && name in names[id] ::
          Exposed(backends[id].def.namespace, name) in all
    {
      var id := ids[i];
      if id in names {
        var listed := names[id];
        for j := 0 to |listed|
          invariant forall e | e in all ::
              exists id, name | id in ids && id in names && name in names[id] :: e == Exposed(backends[id].def.namespace, name)
          invariant forall id, name | id in ids[..i] && id in names && name in names[id] ::
              Exposed(backends[id].def.namespace, name) in all
          invariant forall k | 0 <= k < j :: Exposed(backends[id].def.namespace, listed[k]) in all
        {
          all := all + [Exposed(backends[id].def.namespace, listed[j])];
        }
      }
    }
  }

  /** The search stops at this backend. */
  predicate Takes(def: BackendDef, event: string) {
    def.namespace.None? || Dotted(def.namespace.value) <= event
  }

  /**
   An event name is routed to its own backend under its original name if and only if no backend
   before it lacks a namespace or has one that starts the exposed name.
   */
  lemma {:induction false} EventTargetIff(backends: map<string, Handle>, ids: seq<string>, k: nat, name: string)
    requires (forall o | o in ids :: o in backends) && k < |ids|
    requires forall i | 0 <= i < k :: ids[i] != ids[k]
    ensures
      var event := Exposed(backends[ids[k]].def.namespace, name);
      EventTarget(backends, ids, event) == Some((ids[k], name)) <==>
        forall i | 0 <= i < k :: !Takes(backends[ids[i]].def, event)
    decreases |ids|
  {
    var event := Exposed(backends[ids[k]].def.namespace, name);
    if k == 0 {
      if backends[ids[0]].def.namespace.Some? {
        ExposedStartsDotted(backends[ids[0]].def.namespace.value, name);
      }
    } else if !Takes(backends[ids[0]].def, event) {
      EventTargetIff(backends, ids[1..], k - 1, name);
      assert forall i | 0 < i < k :: ids[i] == ids[1..][i - 1];
      assert forall i | 0 <= i < k - 1 :: ids[1..][i] == ids[i + 1];
    }
  }

  /** Of two backends, either may be sent the other's events if it comes first. */
  predicate Shadows(a: BackendDef, b: BackendDef) {
    || a.namespace.None? || b.namespace.None?
    || Dotted(a.namespace.value) <= Dotted(b.namespace.value)
    || Dotted(b.namespace.value) <= Dotted(a.namespace.value)
  }

  lemma TakesSomeIff(a: BackendDef, b: BackendDef)
    ensures (exists name :: Takes(a, Exposed(b.namespace, name))) <==> Shadows(a, b)
  {
    if a.namespace.None? {
      assert Takes(a, Exposed(b.namespace, ""));
    } else if b.namespace.None? {
      assert Takes(a, Exposed(b.namespace, Dotted(a.namespace.value)));
    } else {
      var na, nb := a.namespace.value, b.namespace.value;
      CollisionPossibleIff(na, nb);
      if name :| Takes(a, Exposed(b.namespace, name)) {
        assert Exposed(Some(na), Exposed(Some(nb), name)[|na| + 1..]) == Exposed(Some(nb), name);
      }
      if s, t :| Exposed(Some(na), s) == Exposed(Some(nb), t) {
        ExposedStartsDotted(na, s);
        assert Takes(a, Exposed(b.namespace, t));
      }
    }
  }

  /** Every event of every backend is routed back to it under its original name. */
  ghost predicate EventsReturn(backends: map<string, Handle>, ids: seq<string>)
    requires forall o | o in ids :: o in backends
  {
    forall k: nat, name | k < |ids| ::
      EventTarget(backends, ids, Exposed(backends[ids[k]].def.namespace, name)) == Some((ids[k], name))
  }

  predicate NoneShadows(backends: map<string, Handle>, ids: seq<string>)
    requires forall o | o in ids :: o in backends
  {
    forall id, other | id in ids && other in ids && id != other :: !Shadows(backends[id].def, backends[other].def)
  }

  /**
   Main result: all events find their way back if and only if no backend shadows another, that is,
   there is only one or all have namespaces that do not start one another. The order plays no part.
   */
  lemma EventsReturnIff(backends: map<string, Handle>, ids: seq<string>)
    requires (forall o | o in ids :: o in backends) && NoRepeats(ids)
    ensures EventsReturn(backends, ids) <==> NoneShadows(backends, ids)
  {
    if NoneShadows(backends, ids) {
      forall k: nat, name | k < |ids|
        ensures EventTarget(backends, ids, Exposed(backends[ids[k]].def.namespace, name)) == Some((ids[k], name))
      {
        EventsRouteBack(backends, ids, k, name);
      }
    } else {
      var i, k :| 0 <= i < k < |ids| && Shadows(backends[ids[i]].def, backends[ids[k]].def);
      TakesSomeIff(backends[ids[i]].def, backends[ids[k]].def);
      var name :| Takes(backends[ids[i]].def, Exposed(backends[ids[k]].def.namespace, name));
      EventTargetIff(backends, ids, k, name);
    }
  }

  /** A backend's events come back if nothing before it shadows it. */
  lemma EventsRouteBack(backends: map<string, Handle>, ids: seq<string>, k: nat, name: string)
    requires (forall o | o in ids :: o in backends) && k < |ids|
    requires forall i | 0 <= i < k :: ids[i] != ids[k] && !Shadows(backends[ids[i]].def, backends[ids[k]].def)
    ensures EventTarget(backends, ids, Exposed(backends[ids[k]].def.namespace, name)) == Some((ids[k], name))
  {
    forall i | 0 <= i < k
      ensures !Takes(backends[ids[i]].def, Exposed(backends[ids[k]].def.namespace, name))
    {
      TakesSomeIff(backends[ids[i]].def, backends[ids[k]].def);
    }
    EventTargetIff(backends, ids, k, name);
  }

  /** Without a namespace, a backend that comes first is sent every event request, also those of others. */
  lemma BareBackendTakesAll(backends: map<string, Handle>, ids: seq<string>, event: string)
    requires ids != [] && (forall o | o in ids :: o in backends) && backends[ids[0]].def.namespace.None?
    ensures EventTarget(backends, ids, event) == Some((ids[0], event))
  {
    EventTargetIff(backends, ids, 0, event);
  }
}
