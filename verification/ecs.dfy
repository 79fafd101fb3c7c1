/**
 The parts of bevy_ecs, bevy_app and bevy_reflect that the dev-tool registry calls,
 reduced to operations on a map (the resource store) and a set (the type registry).
 Their internals are not part of this model; each operation below states only what
 the registry relies on.
 */
module Ecs {
  import opened Optional

  /** Stand-in for `TypeId`: equal exactly for the same concrete type. The three
      generic command adapters get keys built from the key of the tool they wrap,
      so `Enable<T>`, `Disable<T>`, `Toggle<T>` and `T` never collide. */
  datatype TypeKey =
    | TypePath(path: string)
    | EnableOf(tool: TypeKey)
    | DisableOf(tool: TypeKey)
    | ToggleOf(tool: TypeKey)

  /** A `&dyn Reflect`: an introspectable value whose structure this model never looks into. */
  type Reflected(!new)

  /** The reflection facility for one concrete type `V`: the upcast to `dyn Reflect`
      and `FromReflect::from_reflect`, which fails on a shape mismatch. */
  datatype Reflection<!V(!new)> = Reflection(asReflect: V -> Reflected, fromReflect: Reflected -> Option<V>) {

    /** Reconstructing a reflected value gives the value back (what a derived
        `FromReflect` provides; the registry itself does not depend on it). */
    ghost predicate RoundTrips() {
      forall v :: fromReflect(asReflect(v)) == Some(v)
    }
  }

  /** The resource store of a `World`: at most one resource per type. `V` is the
      host's universe of resource values. */
  type World<V> = map<TypeKey, V>

  /** The parts of an `App` the registry touches: its type registry and its world. */
  datatype App<V> = App(registry: set<TypeKey>, world: World<V>)

  /** `World::get_resource`. */
  function GetResource<V>(world: World<V>, key: TypeKey): (r: Option<V>)
    ensures r.None? <==> key !in world
    ensures r.Some? ==> r.value == world[key]
  {
    if key in world then Some(world[key]) else None
  }

  /** `App::register_type`: records the type in the registry and nothing else. */
  function RegisterType<V>(app: App<V>, key: TypeKey): (r: App<V>)
    ensures r.registry == app.registry + {key}
    ensures r.world == app.world
  {
    app.(registry := app.registry + {key})
  }

  /** `App::init_resource`: a resource of the type exists afterwards; a missing one
      is created from the type's default. Only that much is stated. */
  function InitResource<V>(app: App<V>, key: TypeKey, default: V): (r: App<V>)
    ensures r.registry == app.registry
    ensures r.world.Keys == app.world.Keys + {key}
    ensures key !in app.world ==> r.world[key] == default
    ensures forall k :: k in app.world && k != key ==> r.world[k] == app.world[k]
  {
    if key in app.world then app else app.(world := app.world[key := default])
  }

  /** `App::insert_resource`: stores `value` as the resource of its type,
      replacing any previous one. */
  function InsertResource<V>(app: App<V>, key: TypeKey, value: V): (r: App<V>)
    ensures r.registry == app.registry
    ensures r.world.Keys == app.world.Keys + {key}
    ensures r.world[key] == value
    ensures forall k :: k in app.world && k != key ==> r.world[k] == app.world[k]
  {
    app.(world := app.world[key := value])
  }
}
