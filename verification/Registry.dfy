/**
 The backend registry: registered backends and the index from exposed tool names to the backend
 that serves them. Operations run to completion; what a backend answers is an input.
 */
module Registry {
  import opened Options
  import opened Json
  import opened ArgPolicy

  datatype Mode = Eager | Lazy | PerCall

  datatype BackendDef = BackendDef(
    namespace: Option<string>, mode: Mode, allow: seq<string>, deny: seq<string>, policy: Policy)

  datatype Tool = Tool(name: string, description: string, schema: Json)

  datatype RoutedTool = RoutedTool(backend: string, exposed: string, downstream: string, descriptor: Tool)

  /** `events`: whether the last handshake advertised events, once there was one. */
  datatype Handle = Handle(def: BackendDef, healthy: bool, events: Option<bool>, attempts: nat)

  type Index = map<string, RoutedTool>

  datatype Reg = Reg(backends: map<string, Handle>, index: Index)

  /** `compute_exposed_name`. */
  function Exposed(namespace: Option<string>, name: string): string {
    if namespace.Some? then namespace.value + "." + name else name
  }

  predicate Passes(def: BackendDef, name: string) {
    (def.allow == [] || name in def.allow) && name !in def.deny
  }

  function Filter(def: BackendDef, tools: seq<Tool>): seq<Tool> {
    if tools == [] then []
    else (if Passes(def, tools[0].name) then [tools[0]] else []) + Filter(def, tools[1..])
  }

  function Route(id: string, def: BackendDef, tool: Tool): RoutedTool {
    var name := Exposed(def.namespace, tool.name);
    RoutedTool(id, name, tool.name, Tool(name, tool.description, Strip(tool.schema, Hidden(def.policy))))
  }

  /** The entries of every backend but one. */
  function Without(index: Index, id: string): Index {
    map key | key in index && index[key].backend != id :: index[key]
  }

  /** Indexes tools up to the first one whose name is taken. */
  function Add(index: Index, id: string, def: BackendDef, tools: seq<Tool>): (Index, bool)
    decreases |tools|
  {
    if tools == [] then (index, true)
    else
      var routed := Route(id, def, tools[0]);
      if routed.exposed in index then (index, false) else Add(index[routed.exposed := routed], id, def, tools[1..])
  }

  /** What connecting to a backend comes to. */
  datatype Contact = Refused | NoTools(events: bool) | Listed(events: bool, tools: seq<Tool>)

  /** `connect_backend`. */
  function Connect(reg: Reg, id: string, contact: Contact): Reg {
    if id !in reg.backends || contact.Refused? then reg
    else
      var handle := reg.backends[id].(events := Some(contact.events));
      if contact.NoTools? then reg.(backends := reg.backends[id := handle])
      else
        var (index, ok) := Add(Without(reg.index, id), id, handle.def, Filter(handle.def, contact.tools));
        Reg(reg.backends[id := if ok then handle.(healthy := true, attempts := 0) else handle], index)
  }

  /** Whether connecting succeeds: the backend is there, it lists its tools, and no exposed name is taken. */
  predicate Connects(reg: Reg, id: string, contact: Contact) {
    && id in reg.backends && contact.Listed?
    && var def := reg.backends[id].def;
       Add(Without(reg.index, id), id, def, Filter(def, contact.tools)).1
  }

  /** The parts that all operations are made of. */
  datatype Op =
    | Register(id: string, def: BackendDef)
    | Unregister(id: string)
    | ConnectTo(id: string, contact: Contact)
    | CountAttempt(id: string)
    | MarkUnhealthy(id: string)
    | ClearIndex

  function Do(reg: Reg, op: Op): Reg {
    match op
    case Register(id, def) =>
      if id in reg.backends then reg else reg.(backends := reg.backends[id := Handle(def, false, None, 0)])
    case Unregister(id) =>
      if id !in reg.backends then reg else Reg(reg.backends - {id}, Without(reg.index, id))
    case ConnectTo(id, contact) => Connect(reg, id, contact)
    case CountAttempt(id) =>
      if id !in reg.backends then reg
      else reg.(backends := reg.backends[id := reg.backends[id].(attempts := reg.backends[id].attempts + 1)])
    case MarkUnhealthy(id) =>
      if id !in reg.backends then reg else reg.(backends := reg.backends[id := reg.backends[id].(healthy := false)])
    case ClearIndex => reg.(index := map[])
  }

  function DoAll(reg: Reg, ops: seq<Op>): Reg
    decreases |ops|
  {
    if ops == [] then reg else DoAll(Do(reg, ops[0]), ops[1..])
  }

  const EMPTY := Reg(map[], map[])
}
