/**
 Pinned and denied tool arguments: the schema that is advertised, the policy that calls go through,
 and their agreement.
 */
module ArgPolicy {
  import opened Options
  import opened Json

  datatype Policy = Policy(pin: map<string, Json>, deny: seq<string>)

  /** `hidden_args`. */
  function Hidden(p: Policy): set<string> {
    p.pin.Keys + set k | k in p.deny
  }

  // ---- schemas ----

  /** The elements of a `required` list that survive: everything but hidden names. */
  function KeepVisible(items: seq<Json>, hidden: set<string>): seq<Json> {
    if items == [] then []
    else (if items[0].Str? && items[0].s in hidden then [] else [items[0]]) + KeepVisible(items[1..], hidden)
  }

  function StripProperties(f: map<string, Json>, hidden: set<string>): map<string, Json> {
    if "properties" in f && f["properties"].Obj? then f["properties" := Obj(f["properties"].fields - hidden)] else f
  }

  function StripRequired(f: map<string, Json>, hidden: set<string>): map<string, Json> {
    if "required" in f && f["required"].Arr? then f["required" := Arr(KeepVisible(f["required"].items, hidden))] else f
  }

  /** `strip_schema_args`. */
  function Strip(schema: Json, hidden: set<string>): Json {
    if hidden == {} || !schema.Obj? then schema
    else Obj(StripRequired(StripProperties(schema.fields, hidden), hidden))
  }

  /** The argument names a schema offers. */
  function Offered(schema: Json): set<string> {
    if schema.Obj? && "properties" in schema.fields && schema.fields["properties"].Obj?
    then schema.fields["properties"].fields.Keys else {}
  }

  /** The argument names a schema demands. */
  function Required(schema: Json): set<string> {
    if schema.Obj? && "required" in schema.fields && schema.fields["required"].Arr? then
      set v | v in schema.fields["required"].items && v.Str? :: v.s
    else {}
  }

  lemma {:induction false} KeepVisibleIs(items: seq<Json>, hidden: set<string>, v: Json)
    ensures v in KeepVisible(items, hidden) <==> v in items && !(v.Str? && v.s in hidden)
  {
    if items != [] {
      KeepVisibleIs(items[1..], hidden, v);
      assert v in items <==> v == items[0] || v in items[1..];
    }
  }

  /** Stripping hides exactly the hidden names from both lists. */
  lemma StripHides(schema: Json, hidden: set<string>)
    ensures Offered(Strip(schema, hidden)) == Offered(schema) - hidden
    ensures Required(Strip(schema, hidden)) == Required(schema) - hidden
  {
    if hidden != {} && schema.Obj? {
      var f, g := schema.fields, Strip(schema, hidden).fields;
      assert "properties" != "required";
      if "required" in f && f["required"].Arr? {
        forall v ensures v in g["required"].items <==> v in f["required"].items && !(v.Str? && v.s in hidden) {
          KeepVisibleIs(f["required"].items, hidden, v);
        }
      }
    }
  }

  // ---- calls ----

  datatype Outcome = Forward(args: Option<Json>) | Reject

  /** `apply_arg_policy`: what is forwarded, or a rejection. */
  function Apply(p: Policy, args: Option<Json>): Outcome {
    if p.pin == map[] && p.deny == [] then Forward(args)
    else if args.Some? && !args.value.Null? && !args.value.Obj? then Reject
    else
      var obj := if args.Some? && args.value.Obj? then args.value.fields else map[];
      if exists k | k in p.deny :: k in obj then Reject else Forward(Some(Obj(obj + p.pin)))
  }

  /** The same, step by step on a local copy of the arguments. */
  method ApplyArgPolicy(p: Policy, args: Option<Json>) returns (outcome: Outcome)
    ensures outcome == Apply(p, args)
  {
    if p.pin == map[] && p.deny == [] {
      return Forward(args);
    }
    var obj: map<string, Json> := map[];
    if args.Some? && args.value.Obj? {
      obj := args.value.fields;
    } else if args.Some? && !args.value.Null? {
      return Reject;
    }
    for i := 0 to |p.deny|
      invariant forall j | 0 <= j < i :: p.deny[j] !in obj
    {
      if p.deny[i] in obj {
        assert exists k | k in p.deny :: k in obj by { assert p.deny[i] in p.deny; }
        return Reject;
      }
    }
    ghost var given := obj;
    var todo := p.pin.Keys;
    while todo != {}
      invariant todo <= p.pin.Keys
      invariant obj == given + (map k | k in p.pin && k !in todo :: p.pin[k])
      decreases todo
    {
      var k :| k in todo;
      obj := obj[k := p.pin[k]];
      todo := todo - {k};
    }
    assert (map k | k in p.pin && k !in todo :: p.pin[k]) == p.pin;
    outcome := Forward(Some(Obj(obj)));
  }

  /** The arguments that a call gives: absent and null ones count as none; `None` if they are no object. */
  function Given(args: Option<Json>): Option<map<string, Json>> {
    match args
    case None => Some(map[])
    case Some(Null) => Some(map[])
    case Some(Obj(fields)) => Some(fields)
    case _ => None
  }

  predicate HasPolicy(p: Policy) {
    |p.pin| > 0 || |p.deny| > 0
  }

  lemma ApplyWithPolicy(p: Policy, args: Option<Json>)
    requires HasPolicy(p)
    ensures
      Apply(p, args) ==
        if Given(args).None? || (exists k | k in p.deny :: k in Given(args).value) then Reject
        else Forward(Some(Obj(Given(args).value + p.pin)))
  {
  }

  /** Arguments taken from the advertised properties are never rejected. */
  lemma OfferedArgumentsPass(p: Policy, schema: Json, args: Option<Json>)
    requires Given(args).Some? && Given(args).value.Keys <= Offered(Strip(schema, Hidden(p)))
    ensures Apply(p, args) == Forward(if HasPolicy(p) then Some(Obj(Given(args).value + p.pin)) else args)
  {
    StripHides(schema, Hidden(p));
    assert forall k | k in p.deny :: k in Hidden(p) && k !in Given(args).value.Keys;
  }

  /**
   Without a policy, arguments go through as they are. With one, they are rejected exactly if they are
   no object or hold a denied argument; what is forwarded is an object that holds every pinned value,
   and otherwise exactly what the caller gave.
   */
  lemma ForwardedArguments(p: Policy, args: Option<Json>)
    ensures !HasPolicy(p) ==> Apply(p, args) == Forward(args)
    ensures
      HasPolicy(p) ==>
        (Apply(p, args) == Reject <==> Given(args).None? || exists k | k in p.deny :: k in Given(args).value)
    ensures
      HasPolicy(p) && Apply(p, args).Forward? ==>
        var out := Apply(p, args).args;
        && out.Some? && out.value.Obj? && Given(args).Some?
        && (forall k | k in p.pin :: k in out.value.fields && out.value.fields[k] == p.pin[k])
        && (forall k | k !in p.pin :: k in out.value.fields <==> k in Given(args).value)
        && (forall k | k in Given(args).value && k !in p.pin :: out.value.fields[k] == Given(args).value[k])
  {
    if HasPolicy(p) {
      ApplyWithPolicy(p, args);
    }
  }

  /** A required argument that callers may not send and the hub does not set. */
  predicate Unmeetable(p: Policy, schema: Json) {
    exists k | k in Required(schema) :: k in p.deny && k !in p.pin
  }

  /** The names that are forwarded: those given and those pinned, none of the given ones denied. */
  lemma ForwardedNames(p: Policy, args: Option<Json>)
    requires Given(args).Some? && Apply(p, args).Forward?
    ensures
      var out, given := Given(Apply(p, args).args), Given(args).value;
      && out.Some? && out.value.Keys == given.Keys + p.pin.Keys
      && forall k | k in given :: k !in p.deny
  {
  }

  lemma RequirementsOfNames(p: Policy, required: set<string>, given: set<string>)
    requires forall k | k in given :: k !in p.deny
    ensures
      required <= given + p.pin.Keys <==>
        required - Hidden(p) <= given && !exists k | k in required :: k in p.deny && k !in p.pin
  {
    if required <= given + p.pin.Keys {
      forall k | k in required - Hidden(p)
        ensures k in given
      {
        assert k in given + p.pin.Keys;
      }
      forall k | k in required && k in p.deny
        ensures k in p.pin
      {
        assert k in given + p.pin.Keys;
      }
    } else {
      var k :| k in required && k !in given + p.pin.Keys;
      assert k in p.deny || k in required - Hidden(p);
    }
  }

  /**
   Main result: a call that is let through meets the original requirements exactly when it meets
   the advertised ones and no required argument is denied without being pinned.
   */
  lemma RequirementsAgree(p: Policy, schema: Json, args: Option<Json>)
    requires Given(args).Some? && Apply(p, args).Forward?
    ensures
      var out := Given(Apply(p, args).args);
      && out.Some?
      && (Required(schema) <= out.value.Keys <==>
            Required(Strip(schema, Hidden(p))) <= Given(args).value.Keys && !Unmeetable(p, schema))
  {
    StripHides(schema, Hidden(p));
    ForwardedNames(p, args);
    RequirementsOfNames(p, Required(schema), Given(args).value.Keys);
  }

  // ---- the rest of a schema ----

  /** The fields of an object under a field, if there are any. */
  function Under(schema: Json, key: string): map<string, Json> {
    if schema.Obj? && key in schema.fields && schema.fields[key].Obj? then schema.fields[key].fields else map[]
  }

  /** Stripping changes nothing but these two lists, and no property that stays. */
  lemma StripKeepsRest(schema: Json, hidden: set<string>)
    ensures Strip(schema, hidden).Obj? <==> schema.Obj?
    ensures !schema.Obj? ==> Strip(schema, hidden) == schema
    ensures
      schema.Obj? ==>
        var f, g := schema.fields, Strip(schema, hidden).fields;
        && f.Keys == g.Keys
        && (forall k | k in f && k != "properties" && k != "required" :: g[k] == f[k])
        && ("properties" in f && !f["properties"].Obj? ==> g["properties"] == f["properties"])
        && ("required" in f && !f["required"].Arr? ==> g["required"] == f["required"])
        && (forall k | k in Under(schema, "properties") && k !in hidden ::
              k in Under(Strip(schema, hidden), "properties")
              && Under(Strip(schema, hidden), "properties")[k] == Under(schema, "properties")[k])
  {
    assert "properties" != "required";
  }

  lemma Reassociate(a: seq<Json>, b: seq<Json>, c: seq<Json>)
    ensures (a + b) + c == a + (b + c) && [] + c == c
  {
  }

  function KeepOne(item: Json, hidden: set<string>): seq<Json> {
    if item.Str? && item.s in hidden then [] else [item]
  }

  lemma KeepVisibleFirst(item: Json, rest: seq<Json>, hidden: set<string>)
    ensures KeepVisible([item] + rest, hidden) == KeepOne(item, hidden) + KeepVisible(rest, hidden)
  {
    assert ([item] + rest)[1..] == rest;
  }

  /** The `required` list keeps its order: it is cut out piece by piece. */
  lemma {:induction false} KeepVisibleConcat(a: seq<Json>, b: seq<Json>, hidden: set<string>)
    ensures KeepVisible(a + b, hidden) == KeepVisible(a, hidden) + KeepVisible(b, hidden)
    decreases |a|
  {
    if a == [] {
      assert a + b == b;
      Reassociate([], [], KeepVisible(b, hidden));
    } else {
      assert a == [a[0]] + a[1..] && a + b == [a[0]] + (a[1..] + b);
      KeepVisibleFirst(a[0], a[1..], hidden);
      KeepVisibleFirst(a[0], a[1..] + b, hidden);
      KeepVisibleConcat(a[1..], b, hidden);
      Reassociate(KeepOne(a[0], hidden), KeepVisible(a[1..], hidden), KeepVisible(b, hidden));
    }
  }
}
