/**
 The dev-tool registry of `bevy_dev_tools` (crates/bevy_dev_tools/src/lib.rs): the
 `DevTool` and `DevCommand` capabilities, the type-erased tables `ReflectDevTool`
 and `ReflectDevCommand` built once per concrete type, the generic command adapters
 `Enable<T>`, `Disable<T>`, `Toggle<T>`, and the `DevToolsApp` registration calls.

 A concrete Rust type is represented by a record of its implementation
 (`ToolType`, `CommandType`); a trait object (`&dyn DevTool`, `Box<dyn DevCommand>`)
 by the value paired with that record.
 */
module DevTools {
  import opened Optional
  import opened Ecs

  /* ---------------------------------------------------------------- DevTool */

  /** One concrete type `T: DevTool + FromReflect + Default`: its type key, its
      `Default`, its `set_enabled` (which returns the updated value) and
      `is_enabled`, and the reflection facility for it. */
  datatype ToolType<!V(!new)> = ToolType(
    key: TypeKey,
    defaultValue: V,
    setEnabled: (V, bool) -> V,
    isEnabled: V -> bool,
    reflection: Reflection<V>)
  {
    /** `is_enabled` reports what `set_enabled` last stored, as the trait's
        documentation of the two methods says. The compiler cannot enforce it, so
        the properties of the adapters take it as a hypothesis. */
    ghost predicate Lawful() {
      forall v, b :: isEnabled(setEnabled(v, b)) == b
    }
  }

  /** A `&dyn DevTool` or `Box<dyn DevTool>`: a value together with the
      implementation of the concrete type it came from. */
  datatype DynTool<!V(!new)> = DynTool(tool: ToolType<V>, value: V) {

    /** `DevTool::is_enabled` through the trait object. */
    function IsEnabled(): bool {
      tool.isEnabled(value)
    }
  }

  /** `ReflectDevTool`: three plain functions, fixed when the table is built. */
  datatype ReflectDevTool<!V(!new)> = ReflectDevTool(
    getReflectFn: World<V> -> Option<Reflected>,
    getFn: World<V> -> Option<DynTool<V>>,
    fromReflectFn: Reflected -> Option<DynTool<V>>)
  {
    /** `ReflectDevTool::get_reflect`: forwards to the stored function. */
    function GetReflect(world: World<V>): Option<Reflected> {
      getReflectFn(world)
    }

    /** `ReflectDevTool::get`: forwards to the stored function. */
    function Get(world: World<V>): Option<DynTool<V>> {
      getFn(world)
    }

    /** `ReflectDevTool::from_reflect`: forwards to the stored function. */
    function FromReflect(reflect: Reflected): Option<DynTool<V>> {
      fromReflectFn(reflect)
    }
  }

  /** `<ReflectDevTool as FromType<D>>::from_type`: the table for the concrete type
      `t`. Both lookups miss exactly when the world holds no resource of that type
      and otherwise see the stored resource; reconstruction succeeds exactly when
      `D::from_reflect` does and boxes that value unchanged. */
  function ReflectDevToolFromType<V(!new)>(t: ToolType<V>): (vt: ReflectDevTool<V>)
    ensures forall world :: vt.GetReflect(world).None? <==> t.key !in world
    ensures forall world :: t.key in world ==>
      vt.GetReflect(world) == Some(t.reflection.asReflect(world[t.key]))
    ensures forall world :: vt.Get(world).None? <==> t.key !in world
    ensures forall world :: t.key in world ==> vt.Get(world) == Some(DynTool(t, world[t.key]))
    ensures forall reflect :: vt.FromReflect(reflect).Some? <==> t.reflection.fromReflect(reflect).Some?
    ensures forall reflect :: vt.FromReflect(reflect).Some? ==>
      vt.FromReflect(reflect).value == DynTool(t, t.reflection.fromReflect(reflect).value)
  {
    ReflectDevTool(
      world => GetResource(world, t.key).Map(d => t.reflection.asReflect(d)),
      world => GetResource(world, t.key).Map(d => DynTool(t, d)),
      reflect => t.reflection.fromReflect(reflect).Map(d => DynTool(t, d)))
  }

  /** Reconstructing the reflected view of a live tool gives back the very tool
      `get` returns, provided the reflection facility round-trips. */
  lemma GetReflectThenFromReflect<V(!new)>(t: ToolType<V>, world: World<V>)
    requires t.reflection.RoundTrips()
    requires t.key in world
    ensures ReflectDevToolFromType(t).GetReflect(world).Some?
    ensures ReflectDevToolFromType(t).FromReflect(ReflectDevToolFromType(t).GetReflect(world).value)
            == ReflectDevToolFromType(t).Get(world)
  {
  }

  /* ------------------------------------------------------------- DevCommand */

  /** One concrete type `C: DevCommand + FromReflect`: its type key, the reflection
      facility for it and its `DevCommand::apply`. */
  datatype CommandType<!C(!new), !V> = CommandType(
    key: TypeKey,
    reflection: Reflection<C>,
    apply: (C, World<V>) -> World<V>)

  /** The default body of `DevCommand::apply`: it does nothing. */
  function DefaultApply<C, V>(command: C, world: World<V>): (r: World<V>)
    ensures r == world
  {
    world
  }

  /** A `Box<dyn DevCommand>`. */
  datatype BoxedCommand<!C(!new), !V> = BoxedCommand(kind: CommandType<C, V>, command: C) {

    /** `DevCommand::apply` through the trait object. */
    function Apply(world: World<V>): World<V> {
      kind.apply(command, world)
    }
  }

  /** `ReflectDevCommand`: one plain function, fixed when the table is built. */
  datatype ReflectDevCommand<!C(!new), !V> = ReflectDevCommand(
    fromReflectFn: Reflected -> Option<BoxedCommand<C, V>>)
  {
    /** `ReflectDevCommand::from_reflect`: forwards to the stored function. */
    function FromReflect(reflect: Reflected): Option<BoxedCommand<C, V>> {
      fromReflectFn(reflect)
    }
  }

  /** `<ReflectDevCommand as FromType<D>>::from_type`: reconstruction succeeds
      exactly when `D::from_reflect` does and boxes that value unchanged. */
  function ReflectDevCommandFromType<C(!new), V>(c: CommandType<C, V>): (vt: ReflectDevCommand<C, V>)
    ensures forall reflect :: vt.FromReflect(reflect).Some? <==> c.reflection.fromReflect(reflect).Some?
    ensures forall reflect :: vt.FromReflect(reflect).Some? ==>
      vt.FromReflect(reflect).value == BoxedCommand(c, c.reflection.fromReflect(reflect).value)
  {
    ReflectDevCommand(reflect => c.reflection.fromReflect(reflect).Map(d => BoxedCommand(c, d)))
  }

  /* ------------------------------------------------------ generic adapters */

  /** What `Command::apply` leaves behind: the command's own carried copy after the
      call (dropped in Rust, kept here to observe it) and the world. */
  datatype Applied<C, V> = Applied(command: C, world: World<V>)

  /** `Enable<T>`: carries a whole `T`. */
  datatype Enable<V(!new)> = Enable(devTool: V) {

    /** `Command::apply`: enables the carried copy; the world is never touched. */
    function Apply(t: ToolType<V>, world: World<V>): (r: Applied<Enable<V>, V>)
      ensures r.world == world
      ensures t.Lawful() ==> t.isEnabled(r.command.devTool)
    {
      Applied(Enable(t.setEnabled(devTool, true)), world)
    }
  }

  /** `Disable<T>`: carries a whole `T`. */
  datatype Disable<V(!new)> = Disable(devTool: V) {

    /** `Command::apply`: disables the carried copy; the world is never touched. */
    function Apply(t: ToolType<V>, world: World<V>): (r: Applied<Disable<V>, V>)
      ensures r.world == world
      ensures t.Lawful() ==> !t.isEnabled(r.command.devTool)
    {
      Applied(Disable(t.setEnabled(devTool, false)), world)
    }
  }

  /** `Toggle<T>`: carries a whole `T`, the snapshot it toggles relative to. */
  datatype Toggle<V(!new)> = Toggle(devTool: V) {

    /** `Command::apply`: flips the flag of the carried copy, reading the flag from
        that same copy and not from the live resource; the world is never touched. */
    function Apply(t: ToolType<V>, world: World<V>): (r: Applied<Toggle<V>, V>)
      ensures r.world == world
      ensures t.Lawful() ==> t.isEnabled(r.command.devTool) == !t.isEnabled(devTool)
    {
      Applied(Toggle(t.setEnabled(devTool, !t.isEnabled(devTool))), world)
    }
  }

  /** What each adapter does to its carried copy depends on that copy alone: the
      world passed to `apply` is never read. */
  lemma AdaptersIgnoreWorld<V(!new)>(t: ToolType<V>, v: V, world1: World<V>, world2: World<V>)
    ensures Enable(v).Apply(t, world1).command == Enable(v).Apply(t, world2).command
    ensures Disable(v).Apply(t, world1).command == Disable(v).Apply(t, world2).command
    ensures Toggle(v).Apply(t, world1).command == Toggle(v).Apply(t, world2).command
  {
  }

  /** The `DevCommand` impls of the three adapters are empty, so through a
      `Box<dyn DevCommand>` each of them runs the default `apply`. */
  function EnableCommand<V(!new)>(t: ToolType<V>, reflection: Reflection<Enable<V>>): (c: CommandType<Enable<V>, V>)
    ensures c.key == EnableOf(t.key)
    ensures forall e, world :: c.apply(e, world) == world
  {
    CommandType(EnableOf(t.key), reflection, DefaultApply)
  }

  function DisableCommand<V(!new)>(t: ToolType<V>, reflection: Reflection<Disable<V>>): (c: CommandType<Disable<V>, V>)
    ensures c.key == DisableOf(t.key)
    ensures forall d, world :: c.apply(d, world) == world
  {
    CommandType(DisableOf(t.key), reflection, DefaultApply)
  }

  function ToggleCommand<V(!new)>(t: ToolType<V>, reflection: Reflection<Toggle<V>>): (c: CommandType<Toggle<V>, V>)
    ensures c.key == ToggleOf(t.key)
    ensures forall g, world :: c.apply(g, world) == world
  {
    CommandType(ToggleOf(t.key), reflection, DefaultApply)
  }

  /** Reconstructing an adapter from any reflected payload either misses or yields a
      command whose `DevCommand::apply` leaves the world exactly as it was. */
  lemma AdapterDispatchLeavesWorld<V(!new)>(
    t: ToolType<V>,
    enableReflection: Reflection<Enable<V>>,
    disableReflection: Reflection<Disable<V>>,
    toggleReflection: Reflection<Toggle<V>>,
    reflect: Reflected,
    world: World<V>)
    ensures var e := ReflectDevCommandFromType(EnableCommand(t, enableReflection)).FromReflect(reflect);
      e.Some? ==> e.value.Apply(world) == world
    ensures var d := ReflectDevCommandFromType(DisableCommand(t, disableReflection)).FromReflect(reflect);
      d.Some? ==> d.value.Apply(world) == world
    ensures var g := ReflectDevCommandFromType(ToggleCommand(t, toggleReflection)).FromReflect(reflect);
      g.Some? ==> g.value.Apply(world) == world
  {
  }

  /* ------------------------------------------------------------ DevToolsApp */

  /** The three command types `init_dev_tool` and `insert_dev_tool` register for a tool. */
  function AdapterKeys(tool: TypeKey): seq<TypeKey> {
    [EnableOf(tool), DisableOf(tool), ToggleOf(tool)]
  }

  /** `register_dev_command::<C>`: registers `C` and does nothing else. */
  function RegisterDevCommand<V>(app: App<V>, command: TypeKey): (r: App<V>)
    ensures r.registry == app.registry + {command}
    ensures r.world == app.world
  {
    RegisterType(app, command)
  }

  /** A chain `.register_dev_command::<C1>().register_dev_command::<C2>()...`:
      registers exactly the listed types, in order, and leaves the world alone. */
  function RegisterDevCommands<V>(app: App<V>, commands: seq<TypeKey>): (r: App<V>)
    ensures r.registry == app.registry + (set c | c in commands)
    ensures r.world == app.world
    decreases |commands|
  {
    if commands == [] then app
    else RegisterDevCommands(RegisterDevCommand(app, commands[0]), commands[1..])
  }

  /** `init_dev_tool::<T>`: registers `T` and its three adapters, and makes sure
      the world holds a `T`, default-constructed when there was none. */
  function InitDevTool<V(!new)>(app: App<V>, t: ToolType<V>): (r: App<V>)
    ensures r.registry == app.registry + {t.key, EnableOf(t.key), DisableOf(t.key), ToggleOf(t.key)}
    ensures r.world.Keys == app.world.Keys + {t.key}
    ensures t.key !in app.world ==> r.world[t.key] == t.defaultValue
    ensures forall k :: k in app.world && k != t.key ==> r.world[k] == app.world[k]
  {
    var registered := RegisterType(app, t.key);
    var initialised := InitResource(registered, t.key, t.defaultValue);
    RegisterDevCommands(initialised, AdapterKeys(t.key))
  }

  /** `insert_dev_tool(tool)`: registers `T` and its three adapters, and stores
      `tool` as the world's `T`, replacing any previous one. */
  function InsertDevTool<V(!new)>(app: App<V>, t: ToolType<V>, tool: V): (r: App<V>)
    ensures r.registry == app.registry + {t.key, EnableOf(t.key), DisableOf(t.key), ToggleOf(t.key)}
    ensures r.world.Keys == app.world.Keys + {t.key}
    ensures r.world[t.key] == tool
    ensures forall k :: k in app.world && k != t.key ==> r.world[k] == app.world[k]
  {
    var registered := RegisterType(app, t.key);
    var inserted := InsertResource(registered, t.key, tool);
    RegisterDevCommands(inserted, AdapterKeys(t.key))
  }

  /** Calling `init_dev_tool::<T>` a second time changes nothing. */
  lemma InitDevToolIdempotent<V(!new)>(app: App<V>, t: ToolType<V>)
    ensures InitDevTool(InitDevTool(app, t), t) == InitDevTool(app, t)
  {
  }

  /** Inserting the same tool a second time changes nothing. */
  lemma InsertDevToolIdempotent<V(!new)>(app: App<V>, t: ToolType<V>, tool: V)
    ensures InsertDevTool(InsertDevTool(app, t, tool), t, tool) == InsertDevTool(app, t, tool)
  {
  }

  /** After `init_dev_tool::<T>` on a world without a `T`, the tool table finds the
      default `T`, and it reports the default's enabled flag. */
  lemma InitDevToolThenGet<V(!new)>(app: App<V>, t: ToolType<V>)
    requires t.key !in app.world
    ensures ReflectDevToolFromType(t).Get(InitDevTool(app, t).world) == Some(DynTool(t, t.defaultValue))
    ensures ReflectDevToolFromType(t).Get(InitDevTool(app, t).world).value.IsEnabled()
            == t.isEnabled(t.defaultValue)
  {
  }

  /** After `insert_dev_tool(tool)`, the tool table finds exactly `tool`. */
  lemma InsertDevToolThenGet<V(!new)>(app: App<V>, t: ToolType<V>, tool: V)
    ensures ReflectDevToolFromType(t).Get(InsertDevTool(app, t, tool).world) == Some(DynTool(t, tool))
  {
  }
}
