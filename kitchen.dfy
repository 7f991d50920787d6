/**
 * The simulation backend as the skill layer sees it. Object handles carry a
 * position and a width; the gripper is a log of the commands it was sent.
 * Physics, path planning and liquid simulation are not modelled: a command
 * is recorded, never executed.
 */
module Kitchen {
  import opened Geometry

  /** A simulated object (cup, drawer, spoon, stirrer): its position and its width `usr_w`. */
  class Body {
    var position: Vec
    var usrW: real

    constructor (position: Vec, usrW: real)
      ensures this.position == position && this.usrW == usrW
    {
      this.position := position;
      this.usrW := usrW;
    }
  }

  /** One call on the gripper, with its arguments. */
  datatype Cmd =
    | FindPath(goal: Vec, angle: real)
    | Grasp(obj: Body, grasp: real)
    | Place(at: Vec, angle: real)
    | GetLiquidFromFaucet(duration: real)
    | Pour(target: Body, rel: Vec, dangle: real)
    | SetGrasped(obj: Body, grasp: real, at: Vec, angle: real)
    | Scoop(source: Body, rel1: Vec, rel2: Vec, rel3: Vec)
    | Dump(sink: Body, fraction: real)
    | Stir(target: Body, rel1: Vec, rel2: Vec, numStirs: int)

  /**
   * The gripper. Each primitive appends its command to `log`. Where the
   * gripper ends up is the backend's choice: a primitive promises nothing
   * about the new `position`, but records it in the ghost trace `poses`,
   * one entry per command.
   */
  class Gripper {
    var log: seq<Cmd>
    var position: Vec
    var angle: real
    ghost var poses: seq<Vec>

    constructor (initPos: Vec, initAngle: real)
      ensures log == [] && position == initPos && angle == initAngle
      ensures poses == []
    {
      log := [];
      poses := [];
      position := initPos;
      angle := initAngle;
    }

    method FindPath(goal: Vec, angle: real)
      modifies this
      ensures log == old(log) + [Cmd.FindPath(goal, angle)]
      ensures poses == old(poses) + [position]
    {
      log := log + [Cmd.FindPath(goal, angle)];
      poses := poses + [position];
    }

    method Grasp(obj: Body, grasp: real)
      modifies this
      ensures log == old(log) + [Cmd.Grasp(obj, grasp)]
      ensures poses == old(poses) + [position]
    {
      log := log + [Cmd.Grasp(obj, grasp)];
      poses := poses + [position];
    }

    method Place(at: Vec, angle: real)
      modifies this
      ensures log == old(log) + [Cmd.Place(at, angle)]
      ensures poses == old(poses) + [position]
    {
      log := log + [Cmd.Place(at, angle)];
      poses := poses + [position];
    }

    method GetLiquidFromFaucet(duration: real)
      modifies this
      ensures log == old(log) + [Cmd.GetLiquidFromFaucet(duration)]
      ensures poses == old(poses) + [position]
    {
      log := log + [Cmd.GetLiquidFromFaucet(duration)];
      poses := poses + [position];
    }

    method Pour(target: Body, rel: Vec, dangle: real)
      modifies this
      ensures log == old(log) + [Cmd.Pour(target, rel, dangle)]
      ensures poses == old(poses) + [position]
    {
      log := log + [Cmd.Pour(target, rel, dangle)];
      poses := poses + [position];
    }

    method SetGrasped(obj: Body, grasp: real, at: Vec, angle: real)
      modifies this
      ensures log == old(log) + [Cmd.SetGrasped(obj, grasp, at, angle)]
      ensures poses == old(poses) + [position]
    {
      log := log + [Cmd.SetGrasped(obj, grasp, at, angle)];
      poses := poses + [position];
    }

    method Scoop(source: Body, rel1: Vec, rel2: Vec, rel3: Vec)
      modifies this
      ensures log == old(log) + [Cmd.Scoop(source, rel1, rel2, rel3)]
      ensures poses == old(poses) + [position]
    {
      log := log + [Cmd.Scoop(source, rel1, rel2, rel3)];
      poses := poses + [position];
    }

    method Dump(sink: Body, fraction: real)
      modifies this
      ensures log == old(log) + [Cmd.Dump(sink, fraction)]
      ensures poses == old(poses) + [position]
    {
      log := log + [Cmd.Dump(sink, fraction)];
      poses := poses + [position];
    }

    method Stir(target: Body, rel1: Vec, rel2: Vec, numStirs: int)
      modifies this
      ensures log == old(log) + [Cmd.Stir(target, rel1, rel2, numStirs)]
      ensures poses == old(poses) + [position]
    {
      log := log + [Cmd.Stir(target, rel1, rel2, numStirs)];
      poses := poses + [position];
    }
  }
}
