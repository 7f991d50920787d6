/** The example scene and the example script that drives BPSim. */
module World {
  import opened Geometry
  import opened Kitchen
  import opened Registry
  import opened Skills

  // Preset object dimensions of the example scene.
  const POUR_TO_W: real := 4.17393549546
  const POUR_TO_H: real := 4.05998671658
  const POUR_FROM_W: real := 3.61443970857
  const POUR_FROM_H: real := 4.51052132521
  const SCOOP_W: real := 5.388370713
  const SCOOP_H: real := 4.52898336641
  const HOLDER_D: real := 0.5
  const CUP1_X: real := -20.0
  const CUP2_X: real := 0.0
  const LARGE_CUP_X: real := 10.0

  datatype Kind = Drawer | Cup

  /** What a scene builder is asked for: the kind, position, width, height and wall thickness. */
  datatype Placement = Placement(kind: Kind, at: Vec, w: real, h: real, d: real)

  /**
   * A drawer is placed for a cup: its x is the cup's x, its y exceeds the
   * cup's y plus the cup's height by at least 2, and its width exceeds the
   * cup's. These compare the numbers handed to the scene builders only.
   */
  predicate Covers(drawer: Placement, cup: Placement) {
    && drawer.kind == Drawer
    && cup.kind == Cup
    && drawer.at.x == cup.at.x
    && drawer.at.y >= cup.at.y + cup.h + 2.0
    && drawer.w > cup.w
  }

  /** A drawer placed over the cup standing at `cupX`. */
  function DrawerOver(cupX: real): Placement {
    Placement(Drawer, Vec(cupX, POUR_FROM_H + 2.0), POUR_FROM_W * 2.0 + 2.5 * HOLDER_D, POUR_FROM_H, HOLDER_D)
  }

  /** A cup standing on the table at `x`. */
  function CupAt(x: real, w: real, h: real): Placement {
    Placement(Cup, Vec(x, 0.0), w, h, HOLDER_D)
  }

  /**
   * The scene in the order build_world returns it: drawer1, cup1, drawer2,
   * cup2, large_cup. Each drawer is placed for the cup after it, every cup
   * has y = 0, and the cups' x values increase.
   */
  function Layout(): (objs: seq<Placement>)
    ensures |objs| == 5
    ensures Covers(objs[0], objs[1]) && Covers(objs[2], objs[3])
    ensures objs[4].kind == Cup
    ensures forall i | 0 <= i < 5 && objs[i].kind == Cup :: objs[i].at.y == 0.0
    ensures objs[1].at.x < objs[3].at.x < objs[4].at.x
  {
    [ DrawerOver(CUP1_X),
      CupAt(CUP1_X, POUR_FROM_W, POUR_FROM_H),
      DrawerOver(CUP2_X),
      CupAt(CUP2_X, POUR_TO_W, POUR_TO_H),
      CupAt(LARGE_CUP_X, SCOOP_W, SCOOP_H) ]
  }

  /** Creates the five objects of Layout, each a new handle at its placement with its width. */
  method BuildWorld() returns (objs: seq<Body>)
    ensures |objs| == 5
    ensures forall i | 0 <= i < 5 :: fresh(objs[i])
    ensures forall i | 0 <= i < 5 :: objs[i].position == Layout()[i].at && objs[i].usrW == Layout()[i].w
    ensures forall i, j | 0 <= i < j < 5 :: objs[i] != objs[j]
  {
    var layout := Layout();
    var drawer1 := new Body(layout[0].at, layout[0].w);
    var cup1 := new Body(layout[1].at, layout[1].w);
    var drawer2 := new Body(layout[2].at, layout[2].w);
    var cup2 := new Body(layout[3].at, layout[3].w);
    var largeCup := new Body(layout[4].at, layout[4].w);
    objs := [drawer1, cup1, drawer2, cup2, largeCup];
  }

  /** The planner symbols of the example scene, in build_world's order. */
  const SYMBOLS: seq<Symbol> := ["drawer1", "cup1", "drawer2", "cup2", "large_cup"]

  /**
   * The example script: a new session, the scene registered under SYMBOLS,
   * then drawer1 moved to the default drop position.
   */
  method MainScript() returns (sim: BPSim, res: Outcome)
    ensures fresh(sim) && fresh(sim.gripper)
    ensures forall s :: s in sim.symbolToObj <==> s in SYMBOLS
    ensures res == Completed
    ensures "drawer1" in sim.symbolToObj
    ensures sim.gripper.log == [
      FindPath(Vec(CUP1_X, POUR_FROM_H + 2.0 + LIFT), 0.0),
      Grasp(sim.symbolToObj["drawer1"], GRASP),
      FindPath(Vec(-10.0, 10.0 + LIFT), 0.0),
      Place(Vec(-10.0, 10.0), 0.0) ]
  {
    sim := new BPSim();
    var objs := BuildWorld();
    var registry := ZipDict(SYMBOLS, objs);
    assert registry["drawer1"] == objs[0] by {
      assert SYMBOLS[0] == "drawer1";
    }
    sim.InitMapping(registry);
    res := sim.MoveDrawer("drawer1");
  }
}
