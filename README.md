# BPSim: grounding planner symbols in the Kitchen2D simulator

This project models `BPSim`, the layer that connects a symbolic task planner
to a 2-D kitchen simulator. A session keeps a registry from planner symbols to
simulated object handles. It offers seven skills: `move_drawer`, `pick_up`,
`place`, `fill`, `pour`, `scoop` and `stir`. Each skill looks its symbols up in
the registry and then sends a fixed, ordered list of commands to the gripper.
An unknown symbol raises `KeyError` before any command is sent. The project
also models the example scene (`build_world`), the example script (`main`) and
the world constants that convert pixels to metres.

Layout:

- `geometry.dfy` (`Geometry`): 2-D positions and offsets.
- `kitchen.dfy` (`Kitchen`): the simulator as the skill layer sees it. `Body`
  is an object handle with a position and a width (`usr_w`). `Gripper` is a
  log of `Cmd` values, one per call, with every argument. Its position is
  owned by the simulator, and no primitive promises a value for it. A ghost
  trace `poses` records the position after each command.
- `registry.dfy` (`Registry`): symbol lookup (`KeyError` becomes `Missing`)
  and `dict(zip(...))`.
- `skills.dfy` (`Skills`): the tunable constants, the command list of each
  skill (`MoveDrawerPlan`, `PickUpPlan`, `PourPlan`, `ScoopPlan`, `StirPlan`),
  the class `BPSim`, and lemmas about the command lists.
- `world.dfy` (`World`): the placement arithmetic of `build_world` and the
  script of `main`.
- `env_constants.dfy` (`EnvConstants`): `PPM`, the screen size in pixels, and
  the derived sizes in metres.

Positions, widths and tunables are exact `real` numbers. The program computes
them as doubles: it adds offsets (`drawer_pos[1] + 10`,
`obj.position[0] + obj.usr_w + 1`), multiplies (`pour_from_w*2 + 2.5*holder_d`,
`dangle * sign(rel_x)`) and divides (`SCREEN_WIDTH_PX / PPM`). The values it
passes can therefore differ from the model's exact values by rounding. No
branch depends on these values, except `np.sign` of a positive constant.

Three points about the code that the model keeps as written:

- The registry has no per-symbol insertion. `init_mapping` replaces
  the whole mapping with a copy of its argument, and nothing merges.
- `pour` takes only the target symbol. Its offset, its angle and the placement
  margin are fixed in the code.
- The skill that clears an obstructing object away is `move_drawer`, and it works on any registered symbol.

## Model

| member | source | states |
|---|---|---|
| Registry.Resolve | mod_primitive.py:97 | `symbol_to_obj[s]` succeeds exactly when `s` is registered and then yields its handle; otherwise it is a KeyError naming `s` |
| Registry.ResolveAll | mod_primitive.py:117-119 | lookups made one after another succeed exactly when every symbol is registered, giving each symbol's handle in order; otherwise the error names the first unregistered symbol in lookup order |
| Registry.ZipDict | mod_primitive.py:181-183 | `dict(zip(syms, objs))` has as keys exactly the symbols among the first `min` positions, and maps each symbol that does not occur again later to its own object |
| Registry.ZipLength | mod_primitive.py:183 | `zip` pairs up as many elements as the shorter list has |
| Registry.PairsToDict | mod_primitive.py:183 | inserting equal-length pairs in order gives exactly those keys, and the last pair for a symbol wins |
| Skills.Sign | mod_primitive.py:96 | `np.sign`: 1 exactly for positive, -1 exactly for negative, 0 exactly for zero |
| Skills.PourAngle | mod_primitive.py:93-96 | because `rel_x` is positive, `dangle * sign(rel_x)` is the unchanged 1.59620914618 |
| Skills.BPSim.constructor | mod_primitive.py:37-45 | a new session has an empty registry and a new gripper at the start pose (default (20, 40), angle 0) with no commands sent |
| Skills.BPSim.InitMapping | mod_primitive.py:144-148 | the registry afterwards holds exactly the pairs of the argument; the gripper is not touched |
| Skills.BPSim.MoveDrawer | mod_primitive.py:47-60 | unknown symbol: KeyError and the gripper is left entirely unchanged; else exactly find_path(drawer + (0, 10), 0), grasp(drawer, 0.306249162768), find_path(drop + (0, 10), 0), place(drop, 0), with drop defaulting to (-10, 10) |
| Skills.BPSim.PickUp | mod_primitive.py:62-71 | unknown symbol: KeyError and the gripper is left entirely unchanged; else exactly find_path(object + (0, 10), 0) then grasp(object, 0.306249162768) |
| Skills.BPSim.Place | mod_primitive.py:73-78 | exactly one place(pos, 0), whatever the registry holds |
| Skills.BPSim.Fill | mod_primitive.py:80-85 | exactly one get_liquid_from_faucet(duration), default 1, whatever the registry holds |
| Skills.BPSim.Pour | mod_primitive.py:87-100 | unknown symbol: KeyError and the gripper is left entirely unchanged; else exactly pour(target, (3.70183788428, 9.01263886707), 1.59620914618) then place((target.x + target.usr_w + 1, 0), 0) |
| Skills.BPSim.Scoop | mod_primitive.py:102-128 | spoon, object and sink are looked up in that order and the first unknown one raises KeyError and the gripper is left entirely unchanged; else exactly set_grasped(spoon, 0.883195866437, gp, 0), scoop(object, the three waypoints), dump(sink, 0.9), place(dp, 0), with gp = (23, 10) and dp = (0, 10) by default |
| Skills.BPSim.Stir | mod_primitive.py:130-142 | stirrer then object are looked up and the first unknown one raises KeyError and the gripper is left entirely unchanged; else exactly set_grasped(stirrer, 0.8, gp, 0), one stir(object, (0, 0), (1, 0), n), then find_path(p + (0, 5), 0), where p is the gripper's position right after the stir command (the second entry of the recorded pose trace); gp defaults to (10, 10) and n to 5 |
| Skills.PickUpHoldsObject | mod_primitive.py:67-71 | pick_up sends two commands, approaching 10 above the object, and never places or releases |
| Skills.MoveDrawerReleasesOnce | mod_primitive.py:56-60 | move_drawer acts on the drawer alone and places exactly once, last, at the drop position |
| Skills.PourPlacesBesideTarget | mod_primitive.py:92-100 | the pour angle is positive and the held object is placed once, at the target's x plus its width plus 1, on the table (width 4.17 at x 0 gives 5.17) |
| Skills.ScoopTouchesItsThreeObjects | mod_primitive.py:117-128 | scoop acts on exactly the spoon, the source and the sink, and places once |
| Skills.StirIsOneCall | mod_primitive.py:140-142 | stir sends exactly one stir call carrying the whole count, acts on exactly the stirrer and the target, and retreats 5 upwards |
| World.Layout | mod_primitive.py:154-175 | each drawer is given its cup's x, a y (pour_from_h + 2) at least 2 more than the cup's y plus height, and a width (pour_from_w·2 + 2.5·holder_d) larger than the cup's; every cup is given y = 0, and cup1, cup2 and large_cup increasing x |
| World.BuildWorld | mod_primitive.py:168-175 | five distinct new handles, each at its Layout position with its Layout width |
| World.MainScript | mod_primitive.py:177-186 | the example registers exactly the five symbols and moves drawer1, which sends find_path((-20, pour_from_h + 12), 0), grasp(drawer1), find_path((-10, 20), 0), place((-10, 10), 0) |
| EnvConstants.PixelsToMetres | custom/env_constants.py:3-6 | a pixel length divided by PPM; multiplying back by PPM gives the pixels |
| EnvConstants.MetresToPixels | custom/env_constants.py:3-7 | the inverse of PixelsToMetres |
| EnvConstants.ScreenWidth | custom/env_constants.py:6 | SCREEN_WIDTH is 80 metres, and 80 metres are 800 pixels |
| EnvConstants.ScreenHeight | custom/env_constants.py:7 | SCREEN_HEIGHT is 50 metres, and 50 metres are 500 pixels |

## Left out

- `query_gui` and its call at the start of every skill: it is a blocking console prompt that switches the simulator's display on or off. In the source it runs before any symbol lookup, so an unknown symbol still triggers the prompt.
- The `SETTING` dictionary and the `Kitchen2D` object built from it: configuration handed to the simulator's constructor.
- The simulator itself (physics, path planning, liquids, and the `ks.make_*` builders). Gripper primitives only record their command. They neither fail nor move objects. Backend failures, which the source lets propagate, are therefore not modelled.
- Skills.BPSim.Stir: where the gripper stands after the stir motion is the simulator's choice, so the model leaves the value of the retreat's start open. It does fix the rule: the retreat goes 5 above the position the gripper records right after the stir command.
- World.BuildWorld: each handle's `usr_w` is taken to be the width passed to its scene builder, and its position the position passed.
- World.Layout: it compares the numbers handed to the scene builders only. What those numbers mean as geometry (whether a position is an object's centre or its base) is decided by the builders, which are not part of this model.
- The values that `gripper.pour` and `gripper.scoop` return are only printed, so the model drops them.
- Skills.BPSim.InitMapping: the registry is a Dafny `map`, which is a value. The copy made by `copy(registry)` is therefore separate by construction. The model has no mutable caller dictionary whose later changes could be shown not to reach it.
- The commented-out legacy script and the TODO list at the end of mod_primitive.py.
- custom/gui.py: window setup, a vector type and a colour palette, with no logic to state.
