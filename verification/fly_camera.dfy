/**
 `DevFlyCamera` (crates/bevy_dev_tools/src/fly_camera.rs), the one concrete dev
 tool, and the `init_dev_tool` call its plugin makes.
 */
module FlyCamera {
  import opened Optional
  import opened Ecs
  import opened DevTools

  /** An `f32`, kept as its IEEE 754 binary32 bit pattern; no arithmetic is done on it. */
  datatype F32 = F32(bits: bv32)

  /** 3.0 and 10.0 as binary32. */
  const Three: F32 := F32(0x4040_0000)
  const Ten: F32 := F32(0x4120_0000)

  datatype DevFlyCamera = DevFlyCamera(
    enabled: bool,
    movementSpeed: Option<F32>,
    turnSpeed: Option<F32>)

  /** The type key of `DevFlyCamera`. */
  const FlyCameraKey: TypeKey := TypePath("bevy_dev_tools::fly_camera::DevFlyCamera")

  /** `Default for DevFlyCamera`: enabled, moving at 3.0 and turning at 10.0. */
  function Default(): (c: DevFlyCamera)
    ensures IsEnabled(c)
    ensures c.movementSpeed == Some(Three) && c.turnSpeed == Some(Ten)
  {
    DevFlyCamera(true, Some(Three), Some(Ten))
  }

  /** `DevTool::set_enabled`. */
  function SetEnabled(c: DevFlyCamera, enabled: bool): (r: DevFlyCamera)
    ensures IsEnabled(r) == enabled
    ensures r.movementSpeed == c.movementSpeed && r.turnSpeed == c.turnSpeed
  {
    c.(enabled := enabled)
  }

  /** `DevTool::is_enabled`. */
  function IsEnabled(c: DevFlyCamera): bool {
    c.enabled
  }

  /** `is_enabled` reports the `enabled` field, and after `set_enabled(b)` it
      reports `b`. */
  lemma IsEnabledReportsFlag(c: DevFlyCamera, b: bool)
    ensures IsEnabled(c) == c.enabled
    ensures IsEnabled(SetEnabled(c, b)) == b
  {
  }

  /** Setting the flag twice to the same value is the same as setting it once. */
  lemma SetEnabledIdempotent(c: DevFlyCamera, enabled: bool)
    ensures SetEnabled(SetEnabled(c, enabled), enabled) == SetEnabled(c, enabled)
  {
  }

  /** Setting the flag to what `is_enabled` already reports leaves the camera as it is. */
  lemma SetEnabledToCurrentIsIdentity(c: DevFlyCamera)
    ensures SetEnabled(c, IsEnabled(c)) == c
  {
  }

  /** `DevFlyCamera` as a dev-tool type, given the reflection facility its
      `#[derive(Reflect)]` provides. */
  function Tool(reflection: Reflection<DevFlyCamera>): (t: ToolType<DevFlyCamera>)
    ensures t.key == FlyCameraKey
    ensures t.Lawful()
    ensures t.isEnabled(t.defaultValue)
    ensures forall c, b :: t.setEnabled(c, b).movementSpeed == c.movementSpeed
    ensures forall c, b :: t.setEnabled(c, b).turnSpeed == c.turnSpeed
  {
    ToolType(FlyCameraKey, Default(), SetEnabled, IsEnabled, reflection)
  }

  /** `DevFlyCameraPlugin::build` without the `setup` system it schedules: registers
      the camera and its three commands, and leaves a default camera in a world that
      had none. */
  function PluginBuild(app: App<DevFlyCamera>, reflection: Reflection<DevFlyCamera>): (r: App<DevFlyCamera>)
    ensures r.registry == app.registry
      + {FlyCameraKey, EnableOf(FlyCameraKey), DisableOf(FlyCameraKey), ToggleOf(FlyCameraKey)}
    ensures r.world.Keys == app.world.Keys + {FlyCameraKey}
    ensures FlyCameraKey !in app.world ==> r.world[FlyCameraKey] == Default()
    ensures FlyCameraKey !in app.world ==> r.world[FlyCameraKey].enabled
    ensures forall k :: k in app.world && k != FlyCameraKey ==> r.world[k] == app.world[k]
  {
    InitDevTool(app, Tool(reflection))
  }

  /** `Enable<DevFlyCamera>` enables its carried camera, keeps its speeds and
      leaves the world unchanged. */
  lemma EnableFlyCamera(reflection: Reflection<DevFlyCamera>, c: DevFlyCamera, world: World<DevFlyCamera>)
    ensures Enable(c).Apply(Tool(reflection), world) == Applied(Enable(c.(enabled := true)), world)
  {
  }

  /** `Disable<DevFlyCamera>` disables its carried camera, keeps its speeds and
      leaves the world unchanged. */
  lemma DisableFlyCamera(reflection: Reflection<DevFlyCamera>, c: DevFlyCamera, world: World<DevFlyCamera>)
    ensures Disable(c).Apply(Tool(reflection), world) == Applied(Disable(c.(enabled := false)), world)
  {
  }

  /** `Toggle<DevFlyCamera>` flips the flag of its carried camera, keeps its speeds
      and leaves the world unchanged, whatever the world holds. */
  lemma ToggleFlyCamera(reflection: Reflection<DevFlyCamera>, c: DevFlyCamera, world: World<DevFlyCamera>)
    ensures Toggle(c).Apply(Tool(reflection), world) == Applied(Toggle(c.(enabled := !c.enabled)), world)
  {
  }

  /** A `Toggle<DevFlyCamera>` carrying the default camera ends with that copy
      disabled, while the live camera in the world stays as it was. */
  lemma ToggleDefaultDisables(reflection: Reflection<DevFlyCamera>, world: World<DevFlyCamera>)
    ensures !Toggle(Default()).Apply(Tool(reflection), world).command.devTool.enabled
    ensures Toggle(Default()).Apply(Tool(reflection), world).world == world
  {
  }

  /** Right after the plugin is built on a world without a camera, enabling,
      disabling or toggling through the commands leaves the live camera enabled:
      the adapters only change their own copies. */
  lemma LiveCameraUnaffectedByCommands(
    app: App<DevFlyCamera>, reflection: Reflection<DevFlyCamera>, c: DevFlyCamera)
    requires FlyCameraKey !in app.world
    ensures var world := PluginBuild(app, reflection).world;
      && Disable(c).Apply(Tool(reflection), world).world[FlyCameraKey].enabled
      && Toggle(c).Apply(Tool(reflection), world).world[FlyCameraKey].enabled
      && Enable(c).Apply(Tool(reflection), world).world[FlyCameraKey].enabled
  {
  }
}
