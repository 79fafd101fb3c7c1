# bevy_dev_tools dev-tool registry, in Dafny

This project models the dev-tool registry of Bevy's `bevy_dev_tools` crate and proves
properties of the model. It covers four parts:

- **Capabilities.** A *dev tool* is a resource with an enabled flag (`DevTool`: `set_enabled`, `is_enabled`). A *dev command* is a reflectable command (`DevCommand`), whose `apply` does nothing by default.
- **Type-erased tables.** `ReflectDevTool` and `ReflectDevCommand` are records of plain functions, built once per concrete type by `FromType`. They look the type's resource up in the world, and they rebuild a boxed trait object from a reflected value.
- **Generic adapters.** `Enable<T>`, `Disable<T>` and `Toggle<T>` are commands that each carry a whole `T`.
- **Registration and the one concrete tool.** The `DevToolsApp` calls are `init_dev_tool`, `insert_dev_tool` and `register_dev_command`. The concrete tool is `DevFlyCamera`, and its plugin calls `init_dev_tool::<DevFlyCamera>()`.

Files:

- `optional.dfy`: `Option`, with `map`.
- `ecs.dfy`: the engine operations the registry calls, reduced to a model.
  - A world is a map from type key to resource.
  - An app is a set of registered type keys plus a world.
  - `Reflected` is an abstract stand-in for `dyn Reflect`.
  - `Reflection<V>` pairs the upcast to `dyn Reflect` with `FromReflect::from_reflect`, which is partial.
- `dev_tools.dfy`: `crates/bevy_dev_tools/src/lib.rs`.
- `fly_camera.dfy`: `crates/bevy_dev_tools/src/fly_camera.rs`.

A concrete Rust type is modelled as a record of its implementation:

- `ToolType` holds the key, the `Default`, `set_enabled`, `is_enabled` and the reflection.
- `CommandType` holds the key, the reflection and `DevCommand::apply`.

A trait object is modelled as a value paired with that record (`DynTool`, `BoxedCommand`). `ToolType.Lawful()` says that `is_enabled` reports what `set_enabled` last stored. The trait documents this law for its two methods (lib.rs:73-77), but the compiler cannot enforce it for an arbitrary implementation. So the model takes it as the hypothesis `Lawful()`, and `DevFlyCamera` is proved to satisfy it (`FlyCamera.Tool`).

`Command::apply` consumes the command and returns nothing. The model returns `Applied(command, world)` instead. This holds the command's own carried copy after the call, so that the copy can be observed, and it holds the world.

## What the adapters actually change

The names `Enable<T>`, `Disable<T>` and `Toggle<T>` suggest that applying one changes the live tool's flag. The code does something else, and the model follows the code:

- `Enable<T>`, `Disable<T>` and `Toggle<T>` change only their own carried copy. Their `_world` parameter is never used (lib.rs:156, 169, 185).
- Their `DevCommand` impls are empty, so through a `Box<dyn DevCommand>` they run the default `apply`, which does nothing (lib.rs:122, 160, 173-176, 189).

The lemmas `DevTools.AdapterDispatchLeavesWorld` and `FlyCamera.LiveCameraUnaffectedByCommands` prove that the live resource is left as it was.

## Model

| member | source | states |
|---|---|---|
| `DevTools.ReflectDevToolFromType` | crates/bevy_dev_tools/src/lib.rs:80-114 | `get_reflect` and `get` miss exactly when the world has no resource of the type. Otherwise they return that stored resource, as a reflected view and as a tool. `from_reflect` succeeds exactly when the type's `from_reflect` does, and it boxes that value unchanged. |
| `DevTools.GetReflectThenFromReflect` | crates/bevy_dev_tools/src/lib.rs:88-111 | If reflection round-trips, rebuilding a tool from `get_reflect`'s view of the live resource gives exactly the tool that `get` returns. |
| `DevTools.ReflectDevCommandFromType` | crates/bevy_dev_tools/src/lib.rs:125-147 | A command's `from_reflect` succeeds exactly when the command type's `from_reflect` does, and it boxes that value unchanged. A shape mismatch gives none. |
| `DevTools.Enable.Apply` | crates/bevy_dev_tools/src/lib.rs:149-159 | Afterwards the carried tool reports enabled, whatever it held before. The world is unchanged. |
| `DevTools.Disable.Apply` | crates/bevy_dev_tools/src/lib.rs:162-172 | Afterwards the carried tool reports disabled, whatever it held before. The world is unchanged. |
| `DevTools.Toggle.Apply` | crates/bevy_dev_tools/src/lib.rs:178-188 | Afterwards the carried tool's flag is the negation of that same copy's flag before the call. The world is not written. `DevTools.AdaptersIgnoreWorld` shows it is not read either. |
| `DevTools.AdaptersIgnoreWorld` | crates/bevy_dev_tools/src/lib.rs:155-188 | The carried copy that `Enable`, `Disable` or `Toggle` leaves behind is the same whatever world `apply` is given. The world is never read. |
| `DevTools.EnableCommand` | crates/bevy_dev_tools/src/lib.rs:160 | `Enable<T>` is keyed by `T`'s key. Its `DevCommand::apply` is the default, which leaves any world as it was. |
| `DevTools.DisableCommand` | crates/bevy_dev_tools/src/lib.rs:173-176 | `Disable<T>` is keyed by `T`'s key. Its `DevCommand::apply` leaves any world as it was. |
| `DevTools.ToggleCommand` | crates/bevy_dev_tools/src/lib.rs:189 | `Toggle<T>` is keyed by `T`'s key. Its `DevCommand::apply` leaves any world as it was. |
| `DevTools.DefaultApply` | crates/bevy_dev_tools/src/lib.rs:122 | The default `DevCommand::apply` is a no-op: the world it returns is the world it was given. |
| `DevTools.AdapterDispatchLeavesWorld` | crates/bevy_dev_tools/src/lib.rs:116-123 | Take any reflected payload. An adapter rebuilt from it through its `ReflectDevCommand` leaves the world unchanged when applied through `DevCommand`. |
| `DevTools.RegisterDevCommand` | crates/bevy_dev_tools/src/lib.rs:228-232 | `register_dev_command::<C>` adds exactly `C` to the registry and leaves the resource store unchanged. |
| `DevTools.RegisterDevCommands` | crates/bevy_dev_tools/src/lib.rs:212-214 | A chain of `register_dev_command` calls adds exactly the listed types to the registry and leaves the resource store unchanged. |
| `DevTools.InitDevTool` | crates/bevy_dev_tools/src/lib.rs:207-215 | `init_dev_tool::<T>` adds exactly `T`, `Enable<T>`, `Disable<T>` and `Toggle<T>` to the registry. Afterwards the world holds a `T`, which is the default if none was there before. No other resource changes. |
| `DevTools.InsertDevTool` | crates/bevy_dev_tools/src/lib.rs:217-226 | `insert_dev_tool(tool)` adds exactly `T` and its three adapters to the registry. Afterwards the world's `T` equals `tool`. No other resource changes. |
| `DevTools.InitDevToolIdempotent` | crates/bevy_dev_tools/src/lib.rs:207-215 | A second `init_dev_tool::<T>` leaves the app as the first one left it. |
| `DevTools.InsertDevToolIdempotent` | crates/bevy_dev_tools/src/lib.rs:217-226 | A second insert of the same tool leaves the app as the first one left it. |
| `DevTools.InitDevToolThenGet` | crates/bevy_dev_tools/src/lib.rs:207-215 | Start from a world without a `T`. After `init_dev_tool::<T>`, the tool table's `get` finds the default `T`, with the default's enabled flag. |
| `DevTools.InsertDevToolThenGet` | crates/bevy_dev_tools/src/lib.rs:217-226 | After `insert_dev_tool(tool)`, the tool table's `get` finds exactly `tool`. |
| `FlyCamera.Default` | crates/bevy_dev_tools/src/fly_camera.rs:28-36 | The default camera is enabled and has speeds `Some(3.0)` and `Some(10.0)`. |
| `FlyCamera.SetEnabled` | crates/bevy_dev_tools/src/fly_camera.rs:39-41 | After `set_enabled(b)`, `is_enabled()` returns `b`. `movement_speed` and `turn_speed` are unchanged. |
| `FlyCamera.IsEnabledReportsFlag` | crates/bevy_dev_tools/src/fly_camera.rs:39-45 | `is_enabled` returns the `enabled` field. After `set_enabled(b)` it returns `b`. |
| `FlyCamera.SetEnabledIdempotent` | crates/bevy_dev_tools/src/fly_camera.rs:39-41 | Calling `set_enabled(b)` twice gives the same camera as calling it once. |
| `FlyCamera.SetEnabledToCurrentIsIdentity` | crates/bevy_dev_tools/src/fly_camera.rs:39-45 | `is_enabled` reads the flag without changing anything, so setting the flag to that value gives back the same camera. |
| `FlyCamera.Tool` | crates/bevy_dev_tools/src/fly_camera.rs:20-46 | As a dev tool, `DevFlyCamera` is lawful: `is_enabled` returns what `set_enabled` stored. Its default is enabled, and `set_enabled` keeps both speeds. |
| `FlyCamera.PluginBuild` | crates/bevy_dev_tools/src/fly_camera.rs:13-18 | Building the plugin registers the camera and its three commands. A world that had no camera gets a default, enabled one. No other resource changes. |
| `FlyCamera.EnableFlyCamera` | crates/bevy_dev_tools/src/lib.rs:155-158 | `Enable<DevFlyCamera>` sets only its carried copy's `enabled` to true and leaves the world unchanged. |
| `FlyCamera.DisableFlyCamera` | crates/bevy_dev_tools/src/lib.rs:168-171 | `Disable<DevFlyCamera>` sets only its carried copy's `enabled` to false and leaves the world unchanged. |
| `FlyCamera.ToggleFlyCamera` | crates/bevy_dev_tools/src/lib.rs:184-187 | For every camera, `Toggle<DevFlyCamera>` negates only its carried copy's `enabled`, keeps both speeds and leaves the world unchanged. |
| `FlyCamera.ToggleDefaultDisables` | crates/bevy_dev_tools/src/fly_camera.rs:28-45 | A `Toggle<DevFlyCamera>` that carries the default camera ends with its copy disabled, and the world is unchanged. |
| `FlyCamera.LiveCameraUnaffectedByCommands` | crates/bevy_dev_tools/src/lib.rs:155-187 | Build the plugin on a world without a camera. Afterwards, applying any of the three adapters leaves the live camera enabled. |

## Left out

- `crates/bevy_dev_tools/src/fps_overlay.rs` and `crates/bevy_core_pipeline/src/overlay/camera_overlay.rs`: UI, asset, diagnostics and render-graph code outside the registry.
- `DevToolsPlugin::build`: it calls a feature-gated `ci_testing` module, and `ci_testing` is not part of this model.
- The `setup` system that `DevFlyCameraPlugin::build` schedules: it spawns a camera and a text entity.
- `DevTool::name` and `DevCommand::name`: they call bevy_reflect's `reflect_short_type_path`, which is outside this model.
- Engine internals, reduced to what the registry relies on:
  - `register_type` is modelled as insertion into a set, so re-registration is set union.
  - `init_resource` keeps an existing resource and otherwise inserts the default, as Bevy documents it. Every contract about it speaks only of the world without the resource and of the resource being present afterwards.
- Type data stored in the registry is not modelled. This is what `#[reflect(DevTool)]` and `#[reflect(DevCommand)]` attach. The registry is a set of type keys, and the tables are built by the `FromType` functions directly.
- The derived `Reflect` and `FromReflect` impls are parameters (`Reflection`), not definitions. This covers `DevFlyCamera` and the three adapters. Their correctness is assumed only where a lemma requires `RoundTrips()`.
- The world holds one value type `V`, the host's universe of resources. It is not a heterogeneous store.
- `&dyn` borrows and `Box` ownership are both plain values.
- `f32` speeds are kept as binary32 bit patterns, with no arithmetic.
- DevTools.Enable.Apply: the enabled promise is stated only for tools whose `is_enabled` reports what `set_enabled` stored (`Lawful`). The `DevTool` trait documents this law (lib.rs:73-77), but the compiler cannot enforce it, so the model takes it as a hypothesis.
- DevTools.Disable.Apply: same restriction as for `Enable`.
- DevTools.Toggle.Apply: same restriction as for `Enable`.
