/** The feature-universe section: the catalog of feature groups, the
    `main`/`group` navigation state, the feature nodes generated for a group,
    the connection lines between group nodes, and the particle list of the
    animated galaxy backdrop. Positions are kept only where the source uses
    integers; random layout values are supplied by the caller. */
module Features {
  import opened Wrappers
  import opened Strings

  // ---------------------------------------------------------------------
  // The group catalog

  /** A position in percent of the container, as the catalog writes it */
  datatype Point = Point(x: int, y: int)

  datatype FeatureGroup = FeatureGroup(
    id: string, title: string, icon: string, description: string,
    position: Point, mobilePosition: Point, color: string, features: seq<string>)

  /** `featureGroups` */
  const FeatureGroups: seq<FeatureGroup> := [
    FeatureGroup("productivity", "PRODUCTIVITY", "lucide:zap",
      "Core workflow features that keep you in the flow",
      Point(15, 35), Point(15, 10), "from-indigo-500 to-purple-500", [
        "Generate Text or Transform Selections",
        "Universal Access via Global Hotkeys",
        "Intelligent Floating Orb & Menu",
        "Drag-and-Drop Arc Menu",
        "Smart Paste for Ultimate Speed",
        "Read from Files (PDF, DOCX, etc.)",
        "Flexible Output: In-Place, Windowed, or Diff View",
        "Iterative Refinement Window",
        "Context-Aware Actions"]),
    FeatureGroup("hybrid", "HYBRID AI ENGINE", "lucide:cpu",
      "Run AI locally or connect to cloud providers",
      Point(50, 10), Point(55, 22), "from-purple-500 to-pink-500", [
        "Run AI 100% Locally & Offline",
        "Connect to Your Favorite Cloud AI",
        "Intelligent Provider Fallback",
        "Secure Credential Management"]),
    FeatureGroup("customization", "CUSTOMIZATION", "lucide:sliders-horizontal",
      "Tailor ProseFlow to your exact needs",
      Point(30, 70), Point(25, 35), "from-cyan-500 to-blue-500", [
        "Build Your Own AI \"Actions\"",
        "Dynamic Templating with Placeholders",
        "Build Powerful Multi-Step Actions",
        "Conditional Logic for Inputs",
        "Organize with Groups, Icons & Favorites",
        "Bulk & Drag-and-Drop Management",
        "Duplicate, Export & Share Actions",
        "Conflict-Free Importing",
        "Intuitive Hotkey Recording"]),
    FeatureGroup("models", "LOCAL MODELS", "lucide:database",
      "Manage and run powerful local AI models",
      Point(65, 70), Point(60, 50), "from-blue-500 to-cyan-500", [
        "Integrated Model Library",
        "GPU Acceleration",
        "Specific GPU Selection",
        "Flash Attention Support",
        "Advanced Resource Management",
        "Auto-Unload Idle Models",
        "Load on Startup",
        "Detailed Parameter Control"]),
    FeatureGroup("analytics", "ANALYTICS", "lucide:bar-chart-2",
      "Track usage and optimize performance",
      Point(80, 40), Point(30, 65), "from-teal-500 to-green-500", [
        "Usage Analytics",
        "Live Background Task Monitoring",
        "Real-Time Application Log",
        "Cloud Performance Monitoring",
        "Live Hardware Monitor",
        "Searchable Interaction History"]),
    FeatureGroup("collaboration", "COLLABORATION", "lucide:users",
      "Sync your setup across devices or with your team",
      Point(48, 70), Point(60, 80), "from-green-500 to-emerald-500", [
        "Shared Workspace Sync",
        "Password-Protected Encryption",
        "Automatic & Manual Sync",
        "Advanced Conflict Resolution"])
  ]

  ghost predicate IdsDistinct(groups: seq<FeatureGroup>) {
    forall i, j :: 0 <= i < j < |groups| ==> groups[i].id != groups[j].id
  }

  lemma CatalogShape()
    ensures |FeatureGroups| == 6 && IdsDistinct(FeatureGroups)
  {
  }

  /** `featureGroups.find(group => group.id === id)`, as the index found */
  function FindGroup(id: string): Option<nat> {
    FindIndex(FeatureGroups, (g: FeatureGroup) => g.id == id)
  }

  /** `activeGroupData`: the group named `activeGroup`, else the first group. */
  function ActiveGroupData(activeGroup: string): (g: FeatureGroup)
    ensures g in FeatureGroups
    ensures (exists i :: 0 <= i < |FeatureGroups| && FeatureGroups[i].id == activeGroup) <==> g.id == activeGroup
    ensures g.id != activeGroup ==> g == FeatureGroups[0]
  {
    match FindGroup(activeGroup)
    case Some(k) => FeatureGroups[k]
    case None => FeatureGroups[0]
  }

  /** Ids are distinct, so the group found is the only one with that id. */
  lemma ActiveGroupDataUnique(activeGroup: string, i: nat)
    requires i < |FeatureGroups| && FeatureGroups[i].id == activeGroup
    ensures ActiveGroupData(activeGroup) == FeatureGroups[i]
  {
    CatalogShape();
    var k := FindGroup(activeGroup).value;
    assert k <= i;
  }

  lemma UnknownGroupShowsProductivity()
    ensures ActiveGroupData("unknown").id == "productivity"
  {
  }

  // ---------------------------------------------------------------------
  // Feature nodes of one group

  /** The random layout of a node (position and orb size), supplied from outside */
  datatype Placement = Placement(x: real, y: real, size: real)

  datatype FeatureNode = FeatureNode(id: string, text: string, placement: Placement)

  /** `${groupId}-${index}` */
  function NodeId(groupId: string, index: nat): string {
    groupId + "-" + NatToString(index)
  }

  /** Two nodes of one group never share an id. */
  lemma NodeIdInjective(groupId: string, i: nat, j: nat)
    ensures NodeId(groupId, i) == NodeId(groupId, j) ==> i == j
  {
    var n := |groupId| + 1;
    assert NodeId(groupId, i)[n..] == NatToString(i);
    assert NodeId(groupId, j)[n..] == NatToString(j);
    NatToStringInjective(i, j);
  }

  /** `groupData.features.map((featureText, index) => ...)`; node `i` takes
      the layout `placement(i)`. */
  function FeatureNodes(groupId: string, features: seq<string>, placement: nat -> Placement): (nodes: seq<FeatureNode>)
    ensures |nodes| == |features|
    ensures forall i :: 0 <= i < |nodes| ==>
      nodes[i].text == features[i] && nodes[i].id == NodeId(groupId, i) && nodes[i].placement == placement(i)
  {
    seq(|features|, i requires 0 <= i < |features| => FeatureNode(NodeId(groupId, i), features[i], placement(i)))
  }

  /** The generated ids are pairwise distinct. */
  lemma FeatureNodeIdsDistinct(groupId: string, features: seq<string>, placement: nat -> Placement, i: nat, j: nat)
    requires i < j < |features|
    ensures FeatureNodes(groupId, features, placement)[i].id != FeatureNodes(groupId, features, placement)[j].id
  {
    NodeIdInjective(groupId, i, j);
  }

  // ---------------------------------------------------------------------
  // Navigation state

  datatype ViewMode = Main | Group

  /** The effect of `handleNodeClick(groupId)` on the feature nodes. */
  function NodesAfterClick(current: seq<FeatureNode>, groupId: string, placement: nat -> Placement): (nodes: seq<FeatureNode>)
    ensures FindGroup(groupId).None? ==> nodes == current
    ensures FindGroup(groupId).Some? ==>
      nodes == FeatureNodes(groupId, FeatureGroups[FindGroup(groupId).value].features, placement)
  {
    match FindGroup(groupId)
    case Some(k) => FeatureNodes(groupId, FeatureGroups[k].features, placement)
    case None => current
  }

  /** Clicking a known group lists its features in order, with the ids `groupId-index`. */
  lemma ClickListsFeatures(current: seq<FeatureNode>, i: nat, placement: nat -> Placement, k: nat)
    requires i < |FeatureGroups|
    requires k < |FeatureGroups[i].features|
    ensures |NodesAfterClick(current, FeatureGroups[i].id, placement)| == |FeatureGroups[i].features|
    ensures NodesAfterClick(current, FeatureGroups[i].id, placement)[k] ==
      FeatureNode(FeatureGroups[i].id + "-" + NatToString(k), FeatureGroups[i].features[k], placement(k))
  {
    ActiveGroupDataUnique(FeatureGroups[i].id, i);
    CatalogShape();
    var f := FindGroup(FeatureGroups[i].id).value;
    assert f <= i;
  }

  /** `FeatureUniverse`'s `useState` fields that navigation touches. */
  class FeatureUniverse {
    var activeGroup: string
    var viewMode: ViewMode
    var featureNodes: seq<FeatureNode>

    constructor ()
      ensures activeGroup == "productivity" && viewMode == Main && featureNodes == []
    {
      activeGroup := "productivity";
      viewMode := Main;
      featureNodes := [];
    }

    /** The group whose title and description the group view shows. */
    function ActiveData(): (g: FeatureGroup)
      reads this
      ensures g in FeatureGroups
      ensures g == ActiveGroupData(activeGroup)
      ensures (exists i :: 0 <= i < |FeatureGroups| && FeatureGroups[i].id == activeGroup) <==> g.id == activeGroup
      ensures g.id != activeGroup ==> g == FeatureGroups[0]
    {
      ActiveGroupData(activeGroup)
    }

    /** `handleNodeClick(groupId)` */
    method HandleNodeClick(groupId: string, placement: nat -> Placement)
      modifies this
      ensures activeGroup == groupId && viewMode == Group
      ensures featureNodes == NodesAfterClick(old(featureNodes), groupId, placement)
    {
      activeGroup := groupId;
      var groupData := FindGroup(groupId);
      if groupData.Some? {
        featureNodes := FeatureNodes(groupId, FeatureGroups[groupData.value].features, placement);
      }
      viewMode := Group;
    }

    /** `handleReturnToMain()`: the active group and its nodes are kept. */
    method HandleReturnToMain()
      modifies this`viewMode
      ensures viewMode == Main
    {
      viewMode := Main;
    }
  }

  // ---------------------------------------------------------------------
  // Connection lines between group nodes

  function Abs(n: int): nat {
    if n < 0 then -n else n
  }

  /** The test inside the nested `map`: a later node less than 60 away on both axes */
  predicate Connected(ps: seq<Point>, i: nat, j: nat) {
    i < j < |ps| && Abs(ps[i].x - ps[j].x) < 60 && Abs(ps[i].y - ps[j].y) < 60
  }

  predicate Before(p: (nat, nat), q: (nat, nat)) {
    p.0 < q.0 || (p.0 == q.0 && p.1 < q.1)
  }

  /** The inner `map` for node `i`, from `otherIndex == j` on */
  function Row(ps: seq<Point>, i: nat, j: nat): (row: seq<(nat, nat)>)
    ensures forall k :: 0 <= k < |row| ==> row[k].0 == i && j <= row[k].1 && Connected(ps, row[k].0, row[k].1)
    ensures forall a, b :: 0 <= a < b < |row| ==> row[a].1 < row[b].1
    decreases |ps| - j
  {
    if j >= |ps| then []
    else (if Connected(ps, i, j) then [(i, j)] else []) + Row(ps, i, j + 1)
  }

  /** The outer `map`, from `index == i` on */
  function Rows(ps: seq<Point>, i: nat): (lines: seq<(nat, nat)>)
    ensures forall k :: 0 <= k < |lines| ==> i <= lines[k].0 && Connected(ps, lines[k].0, lines[k].1)
    ensures forall a, b :: 0 <= a < b < |lines| ==> Before(lines[a], lines[b])
    decreases |ps| - i
  {
    if i >= |ps| then [] else Row(ps, i, 0) + Rows(ps, i + 1)
  }

  /** The pairs of group indices joined by a line, in drawing order. */
  function Connections(ps: seq<Point>): seq<(nat, nat)> {
    Rows(ps, 0)
  }

  lemma {:induction false} RowComplete(ps: seq<Point>, i: nat, j: nat, m: nat)
    requires j <= m && Connected(ps, i, m)
    ensures (i, m) in Row(ps, i, j)
    decreases |ps| - j
  {
    if j < m {
      RowComplete(ps, i, j + 1, m);
    }
  }

  lemma {:induction false} RowsComplete(ps: seq<Point>, i: nat, n: nat, m: nat)
    requires i <= n && Connected(ps, n, m)
    ensures (n, m) in Rows(ps, i)
    decreases |ps| - i
  {
    if i < n {
      RowsComplete(ps, i + 1, n, m);
    } else {
      RowComplete(ps, n, 0, m);
    }
  }

  /** A line joins `i` and `j` exactly when `i < j` and they are close on both axes. */
  lemma ConnectionsIff(ps: seq<Point>, i: nat, j: nat)
    ensures (i, j) in Connections(ps) <==> Connected(ps, i, j)
  {
    if Connected(ps, i, j) {
      RowsComplete(ps, 0, i, j);
    }
  }

  /** No self-pairs, and no pair, ordered or not, is drawn twice. */
  lemma ConnectionsOnce(ps: seq<Point>, a: nat, b: nat)
    requires a < b < |Connections(ps)|
    ensures Connections(ps)[a].0 < Connections(ps)[a].1
    ensures Connections(ps)[a] != Connections(ps)[b]
    ensures Connections(ps)[a] != (Connections(ps)[b].1, Connections(ps)[b].0)
  {
  }

  /** The desktop positions of the group nodes, in catalog order */
  function Positions(groups: seq<FeatureGroup>): (ps: seq<Point>)
    ensures |ps| == |groups| && forall i :: 0 <= i < |groups| ==> ps[i] == groups[i].position
  {
    seq(|groups|, i requires 0 <= i < |groups| => groups[i].position)
  }

  const CatalogPositions: seq<Point> :=
    [Point(15, 35), Point(50, 10), Point(30, 70), Point(65, 70), Point(80, 40), Point(48, 70)]

  lemma CatalogPositionsMatch()
    ensures Positions(FeatureGroups) == CatalogPositions
  {
    var ps := Positions(FeatureGroups);
    forall i | 0 <= i < 6 ensures ps[i] == CatalogPositions[i] {
    }
  }

  /** The pairs the main view joins: eleven of the fifteen. Hybrid (index 1)
      is 60 or more away vertically from customization, local models and
      collaboration, and analytics is 65 away horizontally from productivity. */
  const CatalogLines: set<(nat, nat)> :=
    {(0, 1), (0, 2), (0, 3), (0, 5), (1, 4), (2, 3), (2, 4), (2, 5), (3, 4), (3, 5), (4, 5)}

  lemma CatalogConnected(i: nat, j: nat)
    ensures Connected(CatalogPositions, i, j) <==> (i, j) in CatalogLines
  {
  }

  lemma CatalogConnections(i: nat, j: nat)
    ensures (i, j) in Connections(Positions(FeatureGroups)) <==> (i, j) in CatalogLines
  {
    CatalogPositionsMatch();
    ConnectionsIff(CatalogPositions, i, j);
    CatalogConnected(i, j);
  }

  // ---------------------------------------------------------------------
  // The galaxy backdrop's particle list

  const NumParticles := 1200

  /** What `Math.random` decides for one particle: its normalised radius and starting angle */
  datatype Draw = Draw(normalizedRadius: real, theta: real)

  datatype Particle = Particle(normalizedRadius: real, theta: real, velocity: real)

  /** Differential rotation: `0.0001 + (1 - normalizedRadius) * 0.001` */
  function Velocity(normalizedRadius: real): real {
    1.0 / 10000.0 + (1.0 - normalizedRadius) / 1000.0
  }

  /** Inner particles turn strictly faster than outer ones. */
  lemma InnerTurnsFaster(r1: real, r2: real)
    requires r1 < r2
    ensures Velocity(r1) > Velocity(r2)
  {
  }

  function Spawned(draw: nat -> Draw, i: nat): Particle {
    Particle(draw(i).normalizedRadius, draw(i).theta, Velocity(draw(i).normalizedRadius))
  }

  /** The list after the initialisation block: filled only when it was empty. */
  function Initialized(ps: seq<Particle>, draw: nat -> Draw): (r: seq<Particle>)
    ensures |ps| == 0 ==> |r| == NumParticles && forall i :: 0 <= i < |r| ==> r[i] == Spawned(draw, i)
    ensures |ps| != 0 ==> r == ps
  {
    if |ps| == 0 then seq(NumParticles, i requires 0 <= i => Spawned(draw, i)) else ps
  }

  /** Running the initialisation again adds nothing: the count stays 1200. */
  lemma InitializeOnce(ps: seq<Particle>, d1: nat -> Draw, d2: nat -> Draw)
    ensures Initialized(Initialized(ps, d1), d2) == Initialized(ps, d1)
    ensures |ps| == 0 ==> |Initialized(Initialized(ps, d1), d2)| == NumParticles
  {
  }

  /** One animation frame: `p.theta += p.velocity` for every particle. */
  function Step(p: Particle): Particle {
    p.(theta := p.theta + p.velocity)
  }

  function Frames(ps: seq<Particle>, n: nat): (r: seq<Particle>)
    ensures |r| == |ps|
    decreases n
  {
    if n == 0 then ps else Frames(seq(|ps|, k requires 0 <= k < |ps| => Step(ps[k])), n - 1)
  }

  /** After `n` frames each particle has turned by `n` times its own velocity
      and nothing else about it has changed. */
  lemma {:induction false} FramesTurn(ps: seq<Particle>, n: nat, k: nat)
    requires k < |ps|
    ensures Frames(ps, n)[k] == ps[k].(theta := ps[k].theta + (n as real) * ps[k].velocity)
    decreases n
  {
    if n > 0 {
      var next := seq(|ps|, k requires 0 <= k < |ps| => Step(ps[k]));
      FramesTurn(next, n - 1, k);
      var v := ps[k].velocity;
      assert next[k] == ps[k].(theta := ps[k].theta + v);
      assert (ps[k].theta + v) + ((n - 1) as real) * v == ps[k].theta + (n as real) * v;
    }
  }

  /** `AnimatedGalaxyCanvas`'s `particlesRef.current` */
  class GalaxyCanvas {
    var particles: seq<Particle>

    constructor ()
      ensures particles == []
    {
      particles := [];
    }

    /** The effect's set-up: it returns early, creating nothing, unless the canvas,
        its parent element and a 2D context are all present (`surface`); then the
        guarded `for` loop pushes the particles. */
    method InitParticles(surface: bool, draw: nat -> Draw)
      modifies this
      ensures surface ==> particles == Initialized(old(particles), draw)
      ensures !surface ==> particles == old(particles)
    {
      if surface && |particles| == 0 {
        var i := 0;
        while i < NumParticles
          invariant 0 <= i <= NumParticles
          invariant |particles| == i
          invariant forall k :: 0 <= k < i ==> particles[k] == Spawned(draw, k)
        {
          particles := particles + [Spawned(draw, i)];
          i := i + 1;
        }
      }
    }

    /** The `forEach` of one animation frame, updating each particle in place */
    method Frame()
      modifies this
      ensures particles == Frames(old(particles), 1)
    {
      var i := 0;
      while i < |particles|
        invariant 0 <= i <= |particles| == |old(particles)|
        invariant forall k :: 0 <= k < i ==> particles[k] == Step(old(particles)[k])
        invariant forall k :: i <= k < |particles| ==> particles[k] == old(particles)[k]
      {
        particles := particles[i := Step(particles[i])];
        i := i + 1;
      }
      assert Frames(old(particles), 1) == seq(|old(particles)|, k requires 0 <= k < |old(particles)| => Step(old(particles)[k]));
    }
  }
}
