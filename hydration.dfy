/** Hydration (`Base.__init__`): a decoded JSON object becomes a City, User or Task entity whose
    attributes are the object's keys; the values under `city`, `user` and `task` become nested
    entities of those kinds, every other value is kept as it is. Each entity holds a reference to
    the client that made it (`self.request`); `O` is the client's type. */
module Hydration {
  import opened Errors
  import opened Json

  datatype Kind = CityKind | UserKind | TaskKind

  /** An attribute: a raw decoded value, or a nested entity. */
  datatype Field<O> = Raw(value: Value) | Nested(entity: Entity<O>)

  datatype Entity<O> = Entity(kind: Kind, owner: O, attrs: map<string, Field<O>>)

  /** The keys that trigger nested hydration. */
  const NestedKeys: set<string> := {"city", "user", "task"}

  function KindOf(key: string): Kind
    requires key in NestedKeys
  {
    if key == "city" then CityKind else if key == "user" then UserKind else TaskKind
  }

  /** `City(owner, **v)`, `User(owner, **v)` or `Task(owner, **v)`. Unpacking needs a mapping,
      and a `self` or `request` key would bind a parameter twice: both fail (a TypeError in the
      source), as does any nested value that cannot be hydrated. */
  function Hydrate<O>(kind: Kind, owner: O, v: Value): Result<Entity<O>>
    decreases v
  {
    if !v.Obj? || "self" in v.fields || "request" in v.fields then Err(MalformedResponse)
    else if forall k | k in v.fields && k in NestedKeys :: Hydrate(KindOf(k), owner, v.fields[k]).Ok? then
      Ok(Entity(kind, owner, map k | k in v.fields ::
        if k in NestedKeys then Nested(Hydrate(KindOf(k), owner, v.fields[k]).value)
        else Raw(v.fields[k])))
    else Err(MalformedResponse)
  }

  /** The decoded object an entity was made from: nested entities flattened back to objects. */
  function Flatten<O>(e: Entity<O>): Value
    decreases e
  {
    Obj(map k | k in e.attrs ::
      match e.attrs[k]
      case Raw(v) => v
      case Nested(c) => Flatten(c))
  }

  /** The shape hydration produces: no `self` or `request` attribute, nested entities exactly under the
      nested keys, each of the kind its key names and sharing the owner, recursively. */
  ghost predicate WellFormed<O>(e: Entity<O>)
    decreases e
  {
    && "self" !in e.attrs && "request" !in e.attrs
    && forall k | k in e.attrs ::
         && (k in NestedKeys <==> e.attrs[k].Nested?)
         && (e.attrs[k].Nested? ==>
               && e.attrs[k].entity.kind == KindOf(k)
               && e.attrs[k].entity.owner == e.owner
               && WellFormed(e.attrs[k].entity))
  }

  /** Hydration loses nothing and always yields the shape `WellFormed` describes: flattening the entity gives
      back the decoded object. */
  lemma {:induction false} HydrateRoundTrip<O>(kind: Kind, owner: O, v: Value)
    requires Hydrate(kind, owner, v).Ok?
    ensures var e := Hydrate(kind, owner, v).value;
      e.kind == kind && e.owner == owner && WellFormed(e) && Flatten(e) == v
    decreases v
  {
    var e := Hydrate(kind, owner, v).value;
    var m := v.fields;
    forall k | k in m && k in NestedKeys
      ensures var c := Hydrate(KindOf(k), owner, m[k]).value;
        c.kind == KindOf(k) && c.owner == owner && WellFormed(c) && Flatten(c) == m[k]
    {
      HydrateRoundTrip(KindOf(k), owner, m[k]);
    }
    assert WellFormed(e);
    assert Flatten(e).fields == m;
  }

  /** Conversely, every well-formed entity is what hydrating its flattened object yields: the
      two are inverse on well-formed entities. */
  lemma {:induction false} FlattenRoundTrip<O>(e: Entity<O>)
    requires WellFormed(e)
    ensures Hydrate(e.kind, e.owner, Flatten(e)) == Ok(e)
    decreases e
  {
    var m := Flatten(e).fields;
    forall k | k in m && k in NestedKeys
      ensures Hydrate(KindOf(k), e.owner, m[k]) == Ok(e.attrs[k].entity)
    {
      FlattenRoundTrip(e.attrs[k].entity);
    }
    var r := Hydrate(e.kind, e.owner, Flatten(e));
    assert r.Ok?;
    assert r.value.attrs == e.attrs;
  }

  /** `Base.__init__`: the owner is stored first, then the keyword arguments are visited one at
      a time, in whatever order the dictionary yields them, each becoming an attribute. */
  method Build<O>(kind: Kind, owner: O, v: Value) returns (r: Result<Entity<O>>)
    ensures r == Hydrate(kind, owner, v)
    decreases v
  {
    if !v.Obj? || "self" in v.fields || "request" in v.fields {
      return Err(MalformedResponse);
    }
    var fields := v.fields;
    var attrs: map<string, Field<O>> := map[];
    var todo := fields.Keys;
    while todo != {}
      invariant todo <= fields.Keys
      invariant attrs.Keys == fields.Keys - todo
      invariant forall k | k in attrs && k in NestedKeys ::
        Hydrate(KindOf(k), owner, fields[k]).Ok? && attrs[k] == Nested(Hydrate(KindOf(k), owner, fields[k]).value)
      invariant forall k | k in attrs && k !in NestedKeys :: attrs[k] == Raw(fields[k])
      decreases todo
    {
      var k :| k in todo;
      if k == "city" || k == "user" || k == "task" {
        var child := Build(KindOf(k), owner, fields[k]);
        if child.Err? {
          return Err(MalformedResponse);
        }
        attrs := attrs[k := Nested(child.value)];
      } else {
        attrs := attrs[k := Raw(fields[k])];
      }
      todo := todo - {k};
    }
    assert forall k | k in fields && k in NestedKeys :: Hydrate(KindOf(k), owner, fields[k]).Ok?;
    assert attrs == Hydrate(kind, owner, v).value.attrs;
    r := Ok(Entity(kind, owner, attrs));
  }

  /** Hydrating `{"id": 5, "name": "X", "city": {"id": 1, "name": "Metropolis"}}` as a Task gives
      a Task whose `city` is a nested City entity, not a raw mapping. */
  lemma HydrateExample<O>(owner: O)
    ensures var city := Obj(map["id" := Num(1), "name" := Str("Metropolis")]);
      var task := Obj(map["id" := Num(5), "name" := Str("X"), "city" := city]);
      Hydrate(TaskKind, owner, task)
        == Ok(Entity(TaskKind, owner, map[
                "id" := Raw(Num(5)), "name" := Raw(Str("X")),
                "city" := Nested(Entity(CityKind, owner, map["id" := Raw(Num(1)), "name" := Raw(Str("Metropolis"))]))]))
  {
    var c := Entity(CityKind, owner, map["id" := Raw(Num(1)), "name" := Raw(Str("Metropolis"))]);
    var t := Entity(TaskKind, owner, map["id" := Raw(Num(5)), "name" := Raw(Str("X")), "city" := Nested(c)]);
    assert WellFormed(c);
    assert WellFormed(t);
    assert Flatten(c) == Obj(map["id" := Num(1), "name" := Str("Metropolis")]);
    assert Flatten(t) == Obj(map["id" := Num(5), "name" := Str("X"), "city" := Flatten(c)]);
    FlattenRoundTrip(t);
  }
}
