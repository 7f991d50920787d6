/**
 * BPSim: the bridge from a symbolic planner to the simulator. It keeps a
 * registry from planner symbols to object handles and offers seven skills,
 * each of which resolves its symbols and then sends a fixed, ordered list of
 * commands to the gripper.
 */
module Skills {
  import opened Geometry
  import opened Kitchen
  import opened Registry

  // Tunable parameters of the skills, as the source fixes them.

  /** Height above a target at which the gripper approaches it. */
  const LIFT: real := 10.0
  /** Grasp parameter used by move_drawer and pick_up. */
  const GRASP: real := 0.306249162768
  /** Pour offset `(rel_x, rel_y)` relative to the target. */
  const POUR_REL: Vec := Vec(3.70183788428, 9.01263886707)
  /** Pour angle before its sign is taken from `rel_x`. */
  const POUR_DANGLE: real := 1.59620914618
  /** Gap left between a poured-into target and the place where the poured-from object is set down. */
  const POUR_MARGIN: real := 1.0
  /** Grasp parameter for the spoon. */
  const SCOOP_GRASP: real := 0.883195866437
  /** The scoop's three relative waypoints. */
  const SCOOP_REL1: Vec := Vec(0.0276296492162, 0.611922721287)
  const SCOOP_REL2: Vec := Vec(0.846900041891, 0.056968220054)
  const SCOOP_REL3: Vec := Vec(0.960750333945, 0.126499043204)
  /** Fraction handed to `dump`. */
  const DUMP_FRACTION: real := 0.9
  /** Grasp parameter for the stirrer. */
  const STIR_GRASP: real := 0.8
  /** The stir motion's two relative waypoints. */
  const STIR_REL1: Vec := Vec(0.0, 0.0)
  const STIR_REL2: Vec := Vec(1.0, 0.0)
  /** Retreat of the gripper after stirring. */
  const RETREAT: Vec := Vec(0.0, 5.0)

  /** How a skill call ended: it sent all its commands, or a symbol raised KeyError. */
  datatype Outcome = Completed | UnknownSymbol(sym: Symbol)

  /** `np.sign` on a real. */
  function Sign(x: real): (s: real)
    ensures x > 0.0 <==> s == 1.0
    ensures x < 0.0 <==> s == -1.0
    ensures x == 0.0 <==> s == 0.0
  {
    if x > 0.0 then 1.0 else if x < 0.0 then -1.0 else 0.0
  }

  /** The pour angle `dangle * sign(rel_x)`; `rel_x` is positive, so the angle keeps its sign. */
  function PourAngle(): (d: real)
    ensures d == POUR_DANGLE
  {
    POUR_DANGLE * Sign(POUR_REL.x)
  }

  /** Where pour sets the held object down: right of the target by its width plus the margin, on the table. */
  function PourReleasePoint(targetAt: Vec, targetW: real): Vec {
    Vec(targetAt.x + targetW + POUR_MARGIN, 0.0)
  }

  // The command sequence of each skill once its symbols are resolved.

  function MoveDrawerPlan(drawer: Body, drawerAt: Vec, dropPos: Vec): seq<Cmd> {
    [ FindPath(drawerAt.Plus(Vec(0.0, LIFT)), 0.0),
      Grasp(drawer, GRASP),
      FindPath(dropPos.Plus(Vec(0.0, LIFT)), 0.0),
      Place(dropPos, 0.0) ]
  }

  function PickUpPlan(obj: Body, objAt: Vec): seq<Cmd> {
    [ FindPath(objAt.Plus(Vec(0.0, LIFT)), 0.0),
      Grasp(obj, GRASP) ]
  }

  function PourPlan(target: Body, targetAt: Vec, targetW: real): seq<Cmd> {
    [ Pour(target, POUR_REL, PourAngle()),
      Place(PourReleasePoint(targetAt, targetW), 0.0) ]
  }

  function ScoopPlan(spoon: Body, source: Body, sink: Body, spoonGraspPos: Vec, dropPos: Vec): seq<Cmd> {
    [ SetGrasped(spoon, SCOOP_GRASP, spoonGraspPos, 0.0),
      Scoop(source, SCOOP_REL1, SCOOP_REL2, SCOOP_REL3),
      Dump(sink, DUMP_FRACTION),
      Place(dropPos, 0.0) ]
  }

  function StirPlan(stirrer: Body, target: Body, stirGraspPos: Vec, numStirs: int, retreatFrom: Vec): seq<Cmd> {
    [ SetGrasped(stirrer, STIR_GRASP, stirGraspPos, 0.0),
      Stir(target, STIR_REL1, STIR_REL2, numStirs),
      FindPath(retreatFrom.Plus(RETREAT), 0.0) ]
  }

  /** The number of `stir` calls in a command list. */
  function StirCalls(cmds: seq<Cmd>): nat {
    if cmds == [] then 0 else (if cmds[0].Stir? then 1 else 0) + StirCalls(cmds[1..])
  }

  /** The number of `place` calls in a command list. */
  function PlaceCalls(cmds: seq<Cmd>): nat {
    if cmds == [] then 0 else (if cmds[0].Place? then 1 else 0) + PlaceCalls(cmds[1..])
  }

  /** The handles a command list acts on. */
  function Handles(cmds: seq<Cmd>): set<Body> {
    if cmds == [] then {}
    else
      (match cmds[0]
       case Grasp(o, _) => {o}
       case Pour(o, _, _) => {o}
       case SetGrasped(o, _, _, _) => {o}
       case Scoop(o, _, _, _) => {o}
       case Dump(o, _) => {o}
       case Stir(o, _, _, _) => {o}
       case _ => {})
      + Handles(cmds[1..])
  }

  class BPSim {
    const gripper: Gripper
    var symbolToObj: map<Symbol, Body>

    /** A fresh session: a gripper at its start pose and an empty registry. */
    constructor (gripperInitPos: Vec := Vec(20.0, 40.0), gripperInitAngle: real := 0.0)
      ensures fresh(gripper)
      ensures gripper.log == [] && gripper.position == gripperInitPos && gripper.angle == gripperInitAngle
      ensures symbolToObj == map[]
    {
      gripper := new Gripper(gripperInitPos, gripperInitAngle);
      symbolToObj := map[];
    }

    /** Replaces the registry by a copy of `registry`; the gripper is not touched. */
    method InitMapping(registry: map<Symbol, Body>)
      modifies this
      ensures symbolToObj == registry
    {
      symbolToObj := registry;
    }

    /** Carries the drawer away: approach, grasp, carry above the drop position, set down. */
    method MoveDrawer(drawerSym: Symbol, dropPos: Vec := Vec(-10.0, 10.0)) returns (res: Outcome)
      modifies gripper
      ensures drawerSym !in symbolToObj ==> res == UnknownSymbol(drawerSym) && unchanged(gripper)
      ensures drawerSym in symbolToObj ==>
        var drawer := symbolToObj[drawerSym];
        res == Completed && gripper.log == old(gripper.log) + MoveDrawerPlan(drawer, drawer.position, dropPos)
    {
      var r := Resolve(symbolToObj, drawerSym);
      if r.Missing? {
        return UnknownSymbol(r.key);
      }
      var drawer := r.value;
      var drawerPos := drawer.position;
      gripper.FindPath(Vec(drawerPos.x, drawerPos.y + LIFT), 0.0);
      gripper.Grasp(drawer, GRASP);
      gripper.FindPath(Vec(dropPos.x, dropPos.y + LIFT), 0.0);
      gripper.Place(dropPos, 0.0);
      res := Completed;
    }

    /** Approaches the object from above and grasps it; nothing is released. */
    method PickUp(objSym: Symbol) returns (res: Outcome)
      modifies gripper
      ensures objSym !in symbolToObj ==> res == UnknownSymbol(objSym) && unchanged(gripper)
      ensures objSym in symbolToObj ==>
        var obj := symbolToObj[objSym];
        res == Completed && gripper.log == old(gripper.log) + PickUpPlan(obj, obj.position)
    {
      var r := Resolve(symbolToObj, objSym);
      if r.Missing? {
        return UnknownSymbol(r.key);
      }
      var obj := r.value;
      var objPos := obj.position;
      gripper.FindPath(Vec(objPos.x, objPos.y + LIFT), 0.0);
      gripper.Grasp(obj, GRASP);
      res := Completed;
    }

    /** Sets the held object down at `pos`; the registry is not consulted. */
    method Place(pos: Vec)
      modifies gripper
      ensures gripper.log == old(gripper.log) + [Cmd.Place(pos, 0.0)]
    {
      gripper.Place(pos, 0.0);
    }

    /** Holds the grasped object under the faucet for `duration`; the registry is not consulted. */
    method Fill(duration: real := 1.0)
      modifies gripper
      ensures gripper.log == old(gripper.log) + [GetLiquidFromFaucet(duration)]
    {
      gripper.GetLiquidFromFaucet(duration);
    }

    /** Pours into the target, then sets the held object down just right of the target. */
    method Pour(objSym: Symbol) returns (res: Outcome)
      modifies gripper
      ensures objSym !in symbolToObj ==> res == UnknownSymbol(objSym) && unchanged(gripper)
      ensures objSym in symbolToObj ==>
        var obj := symbolToObj[objSym];
        res == Completed && gripper.log == old(gripper.log) + PourPlan(obj, obj.position, obj.usrW)
    {
      var dangle := PourAngle();
      var r := Resolve(symbolToObj, objSym);
      if r.Missing? {
        return UnknownSymbol(r.key);
      }
      var obj := r.value;
      gripper.Pour(obj, POUR_REL, dangle);
      gripper.Place(Vec(obj.position.x + obj.usrW + POUR_MARGIN, 0.0), 0.0);
      res := Completed;
    }

    /** Takes the spoon, scoops from `objSym`, dumps into `dumpSym`, sets the spoon down. */
    method Scoop(objSym: Symbol, spoonSym: Symbol, dumpSym: Symbol,
                 spoonGraspPos: Vec := Vec(23.0, 10.0), dropPos: Vec := Vec(0.0, 10.0))
      returns (res: Outcome)
      modifies gripper
      ensures spoonSym !in symbolToObj ==> res == UnknownSymbol(spoonSym)
      ensures spoonSym in symbolToObj && objSym !in symbolToObj ==> res == UnknownSymbol(objSym)
      ensures spoonSym in symbolToObj && objSym in symbolToObj && dumpSym !in symbolToObj ==>
        res == UnknownSymbol(dumpSym)
      ensures res.UnknownSymbol? ==> unchanged(gripper)
      ensures spoonSym in symbolToObj && objSym in symbolToObj && dumpSym in symbolToObj ==>
        res == Completed &&
        gripper.log == old(gripper.log) +
          ScoopPlan(symbolToObj[spoonSym], symbolToObj[objSym], symbolToObj[dumpSym], spoonGraspPos, dropPos)
    {
      var syms := [spoonSym, objSym, dumpSym];
      var r := ResolveAll(symbolToObj, syms);
      if r.Missing? {
        assert syms[0] == spoonSym && syms[1] == objSym && syms[2] == dumpSym;
        return UnknownSymbol(r.key);
      }
      var spoon, obj, dump := r.value[0], r.value[1], r.value[2];
      gripper.SetGrasped(spoon, SCOOP_GRASP, spoonGraspPos, 0.0);
      gripper.Scoop(obj, SCOOP_REL1, SCOOP_REL2, SCOOP_REL3);
      gripper.Dump(dump, DUMP_FRACTION);
      gripper.Place(dropPos, 0.0);
      res := Completed;
    }

    /**
     * Takes the stirrer, stirs `numStirs` times in one call, then lifts the
     * gripper by RETREAT from wherever the stir left it: `retreatFrom` is the
     * gripper's position right after the stir command.
     */
    method Stir(stirSym: Symbol, objSym: Symbol, stirGraspPos: Vec := Vec(10.0, 10.0), numStirs: int := 5)
      returns (res: Outcome, ghost retreatFrom: Vec)
      modifies gripper
      ensures stirSym !in symbolToObj ==> res == UnknownSymbol(stirSym)
      ensures stirSym in symbolToObj && objSym !in symbolToObj ==> res == UnknownSymbol(objSym)
      ensures res.UnknownSymbol? ==> unchanged(gripper)
      ensures stirSym in symbolToObj && objSym in symbolToObj ==>
        res == Completed &&
        gripper.log == old(gripper.log) +
          StirPlan(symbolToObj[stirSym], symbolToObj[objSym], stirGraspPos, numStirs, retreatFrom)
      ensures res == Completed ==>
        |gripper.poses| == |old(gripper.poses)| + 3 && retreatFrom == gripper.poses[|old(gripper.poses)| + 1]
    {
      retreatFrom := gripper.position;
      var r := ResolveAll(symbolToObj, [stirSym, objSym]);
      if r.Missing? {
        return UnknownSymbol(r.key), retreatFrom;
      }
      var stirrer, obj := r.value[0], r.value[1];
      gripper.SetGrasped(stirrer, STIR_GRASP, stirGraspPos, 0.0);
      gripper.Stir(obj, STIR_REL1, STIR_REL2, numStirs);
      var here := gripper.position;
      retreatFrom := here;
      gripper.FindPath(here.Plus(RETREAT), 0.0);
      res := Completed;
    }
  }

  // Properties of the decompositions.

  /** pick_up approaches from LIFT above the object, grasps it, and releases nothing. */
  lemma PickUpHoldsObject(obj: Body, objAt: Vec)
    ensures |PickUpPlan(obj, objAt)| == 2
    ensures PickUpPlan(obj, objAt)[0].FindPath? && PickUpPlan(obj, objAt)[0].goal == Vec(objAt.x, objAt.y + LIFT)
    ensures PickUpPlan(obj, objAt)[1] == Grasp(obj, GRASP)
    ensures PlaceCalls(PickUpPlan(obj, objAt)) == 0
    ensures Handles(PickUpPlan(obj, objAt)) == {obj}
  {
    var p := PickUpPlan(obj, objAt);
    assert p[1..][1..] == [];
    assert PlaceCalls(p) == PlaceCalls(p[1..]) == PlaceCalls(p[1..][1..]);
    assert Handles(p) == {} + Handles(p[1..]) == {obj} + Handles(p[1..][1..]);
  }

  /** move_drawer grasps the drawer, then releases it exactly once, at the drop position. */
  lemma MoveDrawerReleasesOnce(drawer: Body, drawerAt: Vec, dropPos: Vec)
    ensures PlaceCalls(MoveDrawerPlan(drawer, drawerAt, dropPos)) == 1
    ensures MoveDrawerPlan(drawer, drawerAt, dropPos)[3] == Place(dropPos, 0.0)
    ensures Handles(MoveDrawerPlan(drawer, drawerAt, dropPos)) == {drawer}
  {
    var p := MoveDrawerPlan(drawer, drawerAt, dropPos);
    var p1, p2, p3 := p[1..], p[1..][1..], p[1..][1..][1..];
    assert p3[1..] == [];
    assert PlaceCalls(p) == PlaceCalls(p1) == PlaceCalls(p2) == PlaceCalls(p3) == 1;
    assert Handles(p) == Handles(p1) == {drawer} + Handles(p2);
    assert Handles(p2) == Handles(p3) == {};
  }

  /**
   * pour tips at a positive angle, then sets the held object down to the
   * right of the target, clear of it by the margin: a target of width w at
   * x receives the object at x + w + 1.
   */
  lemma PourPlacesBesideTarget(target: Body, targetAt: Vec, targetW: real)
    ensures PourPlan(target, targetAt, targetW)[0] == Pour(target, POUR_REL, POUR_DANGLE)
    ensures PourAngle() > 0.0
    ensures PourPlan(target, targetAt, targetW)[1] == Place(Vec(targetAt.x + targetW + 1.0, 0.0), 0.0)
    ensures PlaceCalls(PourPlan(target, targetAt, targetW)) == 1
  {
    var p := PourPlan(target, targetAt, targetW);
    assert p[1..][1..] == [];
    assert PlaceCalls(p) == PlaceCalls(p[1..]) == 1;
  }

  /** scoop acts on exactly the spoon, the source and the sink, and sets the spoon down once. */
  lemma ScoopTouchesItsThreeObjects(spoon: Body, source: Body, sink: Body, gp: Vec, dp: Vec)
    ensures Handles(ScoopPlan(spoon, source, sink, gp, dp)) == {spoon, source, sink}
    ensures PlaceCalls(ScoopPlan(spoon, source, sink, gp, dp)) == 1
  {
    var p := ScoopPlan(spoon, source, sink, gp, dp);
    var p1, p2, p3 := p[1..], p[1..][1..], p[1..][1..][1..];
    assert p3[1..] == [];
    assert PlaceCalls(p) == PlaceCalls(p1) == PlaceCalls(p2) == PlaceCalls(p3) == 1;
    assert Handles(p3) == {};
    assert Handles(p2) == {sink};
    assert Handles(p1) == {source, sink};
  }

  /** stir issues exactly one stir call, carrying the whole count, and then retreats upwards by 5. */
  lemma StirIsOneCall(stirrer: Body, target: Body, gp: Vec, n: int, from: Vec)
    ensures StirCalls(StirPlan(stirrer, target, gp, n, from)) == 1
    ensures StirPlan(stirrer, target, gp, n, from)[1].numStirs == n
    ensures StirPlan(stirrer, target, gp, n, from)[2] == FindPath(Vec(from.x, from.y + 5.0), 0.0)
    ensures Handles(StirPlan(stirrer, target, gp, n, from)) == {stirrer, target}
  {
    var p := StirPlan(stirrer, target, gp, n, from);
    var p1, p2 := p[1..], p[1..][1..];
    assert p2[1..] == [];
    assert StirCalls(p) == StirCalls(p1) == 1 + StirCalls(p2) == 1;
    assert Handles(p2) == {};
    assert Handles(p1) == {target};
  }
}
