/**
 * Consistency of the flowchart tables (src/data/guides/flowchart.ts): unique
 * ids, edges that join existing nodes and whose SVG paths are drawn between
 * those nodes' positions, and paths that are chains of edges.
 *
 * The tables are literals, so each fact is checked entry by entry.  To keep
 * each check small, the proofs go through columns (the list of one field of a
 * table), witness indices (for each edge the table indices of its two nodes,
 * for each path the table indices of its edges) and groups of a few entries.
 */
module FlowchartIntegrity {
  import opened Wrappers
  import opened Flowchart

  // ---------------------------------------------------------------------------
  // Unique ids

  /** Node ids are unique. */
  lemma NodeIdsUnique()
    ensures forall i, j :: 0 <= i < j < |Nodes| ==> Nodes[i].id != Nodes[j].id
  {
    NodeColumns();
    NodeIdListDistinct();
  }

  /** Edge ids are unique. */
  lemma EdgeIdsUnique()
    ensures forall i, j :: 0 <= i < j < |Edges| ==> Edges[i].id != Edges[j].id
  {
    EdgeColumns();
    EdgeIdListDistinct();
  }

  /** Path ids are unique. */
  lemma PathIdsUnique()
    ensures forall i, j :: 0 <= i < j < |Paths| ==> Paths[i].id != Paths[j].id
  {
    PathColumns();
    PathIdListDistinct();
  }

  /** Path commands are unique. */
  lemma PathCommandsUnique()
    ensures forall i, j :: 0 <= i < j < |Paths| ==> Paths[i].command != Paths[j].command
  {
    PathColumns();
    PathCommandListDistinct();
  }

  /** The node at a table index is the one its id finds. */
  lemma NodeIndexOfTableNode(w: nat)
    requires w < |Nodes|
    ensures NodeIndex(Nodes, Nodes[w].id) == Some(w)
  {
    NodeIdsUnique();
  }

  /** The edge at a table index is the one its id finds. */
  lemma EdgeIndexOfTableEdge(w: nat)
    requires w < |Edges|
    ensures EdgeIndex(Edges, Edges[w].id) == Some(w)
  {
    EdgeIdsUnique();
  }

  /** The path with a table command is the one `getPathByCommand` returns. */
  lemma PathByTableCommand(w: nat)
    requires w < |Paths|
    ensures GetPathByCommand(Paths[w].command) == Some(Paths[w])
  {
    PathCommandsUnique();
    CommandIndexOfUnique(Paths, w);
  }

  // ---------------------------------------------------------------------------
  // Edges

  /** Every edge joins two existing nodes, and its SVG path is the one
      `generatePath` draws between their positions, at a whole-number middle
      height. */
  lemma EdgesConnectNodes()
    ensures forall k :: 0 <= k < |Edges| ==>
              PositionOf(Edges[k].from).Some? && PositionOf(Edges[k].to).Some? &&
              Edges[k].path() == GeneratePath(PositionOf(Edges[k].from).value, PositionOf(Edges[k].to).value) &&
              EvenSum(PositionOf(Edges[k].from).value, PositionOf(Edges[k].to).value)
  {
    forall k | 0 <= k < |Edges|
      ensures PositionOf(Edges[k].from).Some? && PositionOf(Edges[k].to).Some?
      ensures Edges[k].path() == GeneratePath(PositionOf(Edges[k].from).value, PositionOf(Edges[k].to).value)
      ensures EvenSum(PositionOf(Edges[k].from).value, PositionOf(Edges[k].to).value)
    {
      EdgeEndsFound(k);
      EdgeMidHeights(k);
    }
  }

  /** The nodes an edge names are found by id, at the edge's end points. */
  lemma EdgeEndsFound(k: nat)
    requires k < |Edges|
    ensures PositionOf(Edges[k].from) == Some(Edges[k].pathFrom)
    ensures PositionOf(Edges[k].to) == Some(Edges[k].pathTo)
  {
    EdgeEndNodes();
    NodeIndexOfTableNode(EdgeEnds[k].0);
    NodeIndexOfTableNode(EdgeEnds[k].1);
  }

  /** Each edge's end heights have an even sum. */
  lemma EdgeMidHeights(k: nat)
    requires k < |Edges|
    ensures EvenSum(Edges[k].pathFrom, Edges[k].pathTo)
  {
    EdgeColumns();
    EvenMidHeights();
  }

  // ---------------------------------------------------------------------------
  // Paths

  /** Every path is a chain: it has at least one edge and one node more than
      edges, and its i-th edge exists and goes from its i-th node to the next. */
  lemma PathsAreChains()
    ensures forall q :: 0 <= q < |Paths| ==>
              1 <= |Paths[q].edges| == |Paths[q].nodes| - 1 &&
              forall i :: 0 <= i < |Paths[q].edges| ==>
                EdgeIndex(Edges, Paths[q].edges[i]).Some? &&
                Edges[EdgeIndex(Edges, Paths[q].edges[i]).value].from == Paths[q].nodes[i] &&
                Edges[EdgeIndex(Edges, Paths[q].edges[i]).value].to == Paths[q].nodes[i + 1]
  {
    PathEdgesFound();
    forall q, i | 0 <= q < |Paths| && 0 <= i < |Paths[q].edges|
      ensures EdgeIndex(Edges, Paths[q].edges[i]).Some?
      ensures Edges[EdgeIndex(Edges, Paths[q].edges[i]).value].from == Paths[q].nodes[i]
      ensures Edges[EdgeIndex(Edges, Paths[q].edges[i]).value].to == Paths[q].nodes[i + 1]
    {
      EdgeIndexOfTableEdge(PathEdgeIndices[q][i]);
    }
  }

  /** Every node a path names exists. */
  lemma PathNodesExist()
    ensures forall q, i :: 0 <= q < |Paths| && 0 <= i < |Paths[q].nodes| ==> PositionOf(Paths[q].nodes[i]).Some?
  {
    forall q, i | 0 <= q < |Paths| && 0 <= i < |Paths[q].nodes|
      ensures PositionOf(Paths[q].nodes[i]).Some?
    {
      PathNodeFound(q, i);
    }
  }

  /** A path's node is an end of one of its edges: the edge it leaves by, or
      for the last node the edge it is reached by. */
  lemma PathNodeFound(q: nat, i: nat)
    requires q < |Paths| && i < |Paths[q].nodes|
    ensures PositionOf(Paths[q].nodes[i]).Some?
  {
    PathEdgesFound();
    if i < |Paths[q].edges| {
      EdgeEndsFound(PathEdgeIndices[q][i]);
    } else {
      EdgeEndsFound(PathEdgeIndices[q][i - 1]);
    }
  }

  /** Every path colour has an entry in `pathColors`. */
  lemma PathColorsKnown()
    ensures forall q :: 0 <= q < |Paths| ==> Paths[q].color in PathColors
  {
    PathColumns();
    PathColorListKnown();
  }

  // ---------------------------------------------------------------------------
  // Witnesses

  /** For each edge, the table indices of the nodes it joins. */
  ghost const EdgeEnds: seq<(nat, nat)> := [
    (0, 1), (0, 2), (0, 3), (0, 4), (0, 5), (0, 6), (0, 7), (1, 13),
    (2, 8), (8, 14), (8, 15), (3, 9), (9, 16), (16, 18), (9, 12), (12, 17),
    (12, 18), (18, 19), (4, 10), (10, 20), (10, 21), (20, 21), (5, 22), (5, 23),
    (5, 24), (6, 25), (6, 26), (7, 11), (11, 27), (11, 28), (11, 29)]

  /** For each path, the table index of each of its edges. */
  ghost const PathEdgeIndices: seq<seq<nat>> := [
    [0, 7], [1, 8, 9], [1, 8, 10], [2, 11, 14, 15], [2, 11, 14, 16], [17],
    [2, 11, 12, 13], [3, 18, 19], [3, 18, 20], [4, 22], [4, 23], [4, 24],
    [5, 25], [5, 26], [6, 27, 28], [6, 27, 29], [6, 27, 30]]

  /** The witness indices name the nodes the edges join, at the points the
      edges are drawn between. */
  lemma EdgeEndNodes()
    ensures |EdgeEnds| == |Edges|
    ensures forall k :: 0 <= k < |Edges| ==>
              EdgeEnds[k].0 < |Nodes| && EdgeEnds[k].1 < |Nodes| &&
              Nodes[EdgeEnds[k].0].id == Edges[k].from && Nodes[EdgeEnds[k].1].id == Edges[k].to &&
              Nodes[EdgeEnds[k].0].position == Edges[k].pathFrom && Nodes[EdgeEnds[k].1].position == Edges[k].pathTo
  {
    NodeColumns();
    EdgeColumns();
    EdgeEndIdsInGroup0();
    EdgeEndIdsInGroup1();
    EdgeEndIdsInGroup2();
    EdgeEndIdsInGroup3();
    EdgeEndIdsInGroup4();
    EdgeEndPositionsInGroup0();
    EdgeEndPositionsInGroup1();
    EdgeEndPositionsInGroup2();
    EdgeEndPositionsInGroup3();
    EdgeEndPositionsInGroup4();
  }

  /** The witness indices name each path's edges, which join its consecutive
      nodes. */
  lemma PathEdgesFound()
    ensures |PathEdgeIndices| == |Paths|
    ensures forall q :: 0 <= q < |Paths| ==>
              |PathEdgeIndices[q]| == |Paths[q].edges| == |Paths[q].nodes| - 1 && |Paths[q].edges| >= 1 &&
              forall i :: 0 <= i < |Paths[q].edges| ==>
                PathEdgeIndices[q][i] < |Edges| &&
                Edges[PathEdgeIndices[q][i]].id == Paths[q].edges[i] &&
                Edges[PathEdgeIndices[q][i]].from == Paths[q].nodes[i] &&
                Edges[PathEdgeIndices[q][i]].to == Paths[q].nodes[i + 1]
  {
    PathColumns();
    EdgeColumns();
    PathTailColumn();
    PathEdgeIdsInGroup0();
    PathEdgeIdsInGroup1();
    PathEdgeIdsInGroup2();
    PathEdgeSourcesInGroup0();
    PathEdgeSourcesInGroup1();
    PathEdgeSourcesInGroup2();
    PathEdgeTargetsInGroup0();
    PathEdgeTargetsInGroup1();
    PathEdgeTargetsInGroup2();
  }

  // ---------------------------------------------------------------------------
  // Columns

  ghost const NodeIdList: seq<string> := [
    "start", "new-project", "existing-project",
    "build-feature", "fix-something", "git-ops",
    "docs-design", "need-help", "has-docs",
    "know-what", "know-issue", "help-type",
    "speed-safety", "cmd-bootstrap", "cmd-docs-init",
    "cmd-scout", "cmd-brainstorm", "cmd-cook",
    "cmd-plan", "cmd-code", "cmd-debug",
    "cmd-fix", "cmd-git-cm", "cmd-git-cp",
    "cmd-git-pr", "cmd-docs", "cmd-design",
    "cmd-ck-help", "cmd-ask", "cmd-coding-level"]

  ghost const NodePositionList: seq<Point> := [
    Point(700, 50), Point(90, 160), Point(265, 160), Point(440, 160), Point(615, 160),
    Point(790, 160), Point(1005, 160), Point(1220, 160), Point(265, 280), Point(440, 280),
    Point(615, 280), Point(1220, 280), Point(520, 400), Point(90, 280), Point(160, 400),
    Point(270, 400), Point(380, 400), Point(610, 600), Point(500, 520), Point(500, 640),
    Point(720, 400), Point(650, 500), Point(735, 280), Point(845, 280), Point(790, 340),
    Point(955, 280), Point(1065, 280), Point(1110, 400), Point(1220, 400), Point(1380, 400)]

  ghost const EdgeIdList: seq<string> := [
    "e-start-new-project", "e-start-existing-project", "e-start-build-feature",
    "e-start-fix-something", "e-start-git-ops", "e-start-docs-design",
    "e-start-need-help", "e-new-project-bootstrap", "e-existing-project-hasdocs",
    "e-hasdocs-docsinit", "e-hasdocs-scout", "e-build-feature-know",
    "e-know-brainstorm", "e-brainstorm-plan", "e-know-speed-safety",
    "e-speed-cook", "e-safety-plan", "e-plan-code",
    "e-fix-something-know", "e-know-debug", "e-know-fix",
    "e-debug-fix", "e-git-cm", "e-git-cp",
    "e-git-pr", "e-docs-design-docs", "e-docs-design-design",
    "e-help-type", "e-help-ck", "e-help-ask",
    "e-help-coding"]

  ghost const EdgeFromList: seq<string> := [
    "start", "start", "start", "start",
    "start", "start", "start", "new-project",
    "existing-project", "has-docs", "has-docs", "build-feature",
    "know-what", "cmd-brainstorm", "know-what", "speed-safety",
    "speed-safety", "cmd-plan", "fix-something", "know-issue",
    "know-issue", "cmd-debug", "git-ops", "git-ops",
    "git-ops", "docs-design", "docs-design", "need-help",
    "help-type", "help-type", "help-type"]

  ghost const EdgeToList: seq<string> := [
    "new-project", "existing-project", "build-feature", "fix-something",
    "git-ops", "docs-design", "need-help", "cmd-bootstrap",
    "has-docs", "cmd-docs-init", "cmd-scout", "know-what",
    "cmd-brainstorm", "cmd-plan", "speed-safety", "cmd-cook",
    "cmd-plan", "cmd-code", "know-issue", "cmd-debug",
    "cmd-fix", "cmd-fix", "cmd-git-cm", "cmd-git-cp",
    "cmd-git-pr", "cmd-docs", "cmd-design", "help-type",
    "cmd-ck-help", "cmd-ask", "cmd-coding-level"]

  ghost const EdgePathFromList: seq<Point> := [
    Point(700, 50), Point(700, 50), Point(700, 50), Point(700, 50), Point(700, 50),
    Point(700, 50), Point(700, 50), Point(90, 160), Point(265, 160), Point(265, 280),
    Point(265, 280), Point(440, 160), Point(440, 280), Point(380, 400), Point(440, 280),
    Point(520, 400), Point(520, 400), Point(500, 520), Point(615, 160), Point(615, 280),
    Point(615, 280), Point(720, 400), Point(790, 160), Point(790, 160), Point(790, 160),
    Point(1005, 160), Point(1005, 160), Point(1220, 160), Point(1220, 280), Point(1220, 280),
    Point(1220, 280)]

  ghost const EdgePathToList: seq<Point> := [
    Point(90, 160), Point(265, 160), Point(440, 160), Point(615, 160), Point(790, 160),
    Point(1005, 160), Point(1220, 160), Point(90, 280), Point(265, 280), Point(160, 400),
    Point(270, 400), Point(440, 280), Point(380, 400), Point(500, 520), Point(520, 400),
    Point(610, 600), Point(500, 520), Point(500, 640), Point(615, 280), Point(720, 400),
    Point(650, 500), Point(650, 500), Point(735, 280), Point(845, 280), Point(790, 340),
    Point(955, 280), Point(1065, 280), Point(1220, 280), Point(1110, 400), Point(1220, 400),
    Point(1380, 400)]

  ghost const PathIdList: seq<string> := [
    "path-bootstrap", "path-docs-init", "path-scout",
    "path-cook", "path-plan", "path-code",
    "path-brainstorm", "path-debug", "path-fix",
    "path-git-cm", "path-git-cp", "path-git-pr",
    "path-docs", "path-design", "path-ck-help",
    "path-ask", "path-coding-level"]

  ghost const PathCommandList: seq<string> := [
    "/bootstrap", "/docs:init", "/scout", "/cook",
    "/plan", "/code @plan.md", "/brainstorm", "/debug",
    "/fix", "/git:cm", "/git:cp", "/git:pr",
    "/docs:*", "/design:*", "/ck-help", "/ask",
    "/coding-level"]

  ghost const PathColorList: seq<string> := [
    "amber", "cyan", "cyan", "emerald", "purple", "blue",
    "violet", "orange", "red", "indigo", "indigo", "indigo",
    "amber", "pink", "blue", "blue", "cyan"]

  ghost const PathNodeLists: seq<seq<string>> := [
    ["start", "new-project", "cmd-bootstrap"],
    ["start", "existing-project", "has-docs", "cmd-docs-init"],
    ["start", "existing-project", "has-docs", "cmd-scout"],
    ["start", "build-feature", "know-what", "speed-safety", "cmd-cook"],
    ["start", "build-feature", "know-what", "speed-safety", "cmd-plan"],
    ["cmd-plan", "cmd-code"],
    ["start", "build-feature", "know-what", "cmd-brainstorm", "cmd-plan"],
    ["start", "fix-something", "know-issue", "cmd-debug"],
    ["start", "fix-something", "know-issue", "cmd-fix"],
    ["start", "git-ops", "cmd-git-cm"],
    ["start", "git-ops", "cmd-git-cp"],
    ["start", "git-ops", "cmd-git-pr"],
    ["start", "docs-design", "cmd-docs"],
    ["start", "docs-design", "cmd-design"],
    ["start", "need-help", "help-type", "cmd-ck-help"],
    ["start", "need-help", "help-type", "cmd-ask"],
    ["start", "need-help", "help-type", "cmd-coding-level"]]

  ghost const PathEdgeLists: seq<seq<string>> := [
    ["e-start-new-project", "e-new-project-bootstrap"],
    ["e-start-existing-project", "e-existing-project-hasdocs", "e-hasdocs-docsinit"],
    ["e-start-existing-project", "e-existing-project-hasdocs", "e-hasdocs-scout"],
    ["e-start-build-feature", "e-build-feature-know", "e-know-speed-safety", "e-speed-cook"],
    ["e-start-build-feature", "e-build-feature-know", "e-know-speed-safety", "e-safety-plan"],
    ["e-plan-code"],
    ["e-start-build-feature", "e-build-feature-know", "e-know-brainstorm", "e-brainstorm-plan"],
    ["e-start-fix-something", "e-fix-something-know", "e-know-debug"],
    ["e-start-fix-something", "e-fix-something-know", "e-know-fix"],
    ["e-start-git-ops", "e-git-cm"],
    ["e-start-git-ops", "e-git-cp"],
    ["e-start-git-ops", "e-git-pr"],
    ["e-start-docs-design", "e-docs-design-docs"],
    ["e-start-docs-design", "e-docs-design-design"],
    ["e-start-need-help", "e-help-type", "e-help-ck"],
    ["e-start-need-help", "e-help-type", "e-help-ask"],
    ["e-start-need-help", "e-help-type", "e-help-coding"]]

  /** Each path's nodes after the first: the targets of its edges. */
  ghost const PathNodeTails: seq<seq<string>> := [
    ["new-project", "cmd-bootstrap"],
    ["existing-project", "has-docs", "cmd-docs-init"],
    ["existing-project", "has-docs", "cmd-scout"],
    ["build-feature", "know-what", "speed-safety", "cmd-cook"],
    ["build-feature", "know-what", "speed-safety", "cmd-plan"],
    ["cmd-code"],
    ["build-feature", "know-what", "cmd-brainstorm", "cmd-plan"],
    ["fix-something", "know-issue", "cmd-debug"],
    ["fix-something", "know-issue", "cmd-fix"],
    ["git-ops", "cmd-git-cm"],
    ["git-ops", "cmd-git-cp"],
    ["git-ops", "cmd-git-pr"],
    ["docs-design", "cmd-docs"],
    ["docs-design", "cmd-design"],
    ["need-help", "help-type", "cmd-ck-help"],
    ["need-help", "help-type", "cmd-ask"],
    ["need-help", "help-type", "cmd-coding-level"]]

  lemma NodeColumns()
    ensures |NodeIdList| == |NodePositionList| == |Nodes|
    ensures forall k :: 0 <= k < |Nodes| ==> Nodes[k].id == NodeIdList[k] && Nodes[k].position == NodePositionList[k]
  {
  }

  lemma EdgeColumns()
    ensures |EdgeIdList| == |EdgeFromList| == |EdgeToList| == |EdgePathFromList| == |EdgePathToList| == |Edges|
    ensures forall k :: 0 <= k < |Edges| ==>
              Edges[k].id == EdgeIdList[k] && Edges[k].from == EdgeFromList[k] && Edges[k].to == EdgeToList[k] &&
              Edges[k].pathFrom == EdgePathFromList[k] && Edges[k].pathTo == EdgePathToList[k]
  {
    EdgeIdColumn();
    EdgeEndColumns();
    EdgePointColumns();
  }

  lemma EdgeIdColumn()
    ensures |EdgeIdList| == |Edges|
    ensures forall k :: 0 <= k < |Edges| ==> Edges[k].id == EdgeIdList[k]
  {
  }

  lemma EdgeEndColumns()
    ensures |EdgeFromList| == |EdgeToList| == |Edges|
    ensures forall k :: 0 <= k < |Edges| ==> Edges[k].from == EdgeFromList[k] && Edges[k].to == EdgeToList[k]
  {
  }

  lemma EdgePointColumns()
    ensures |EdgePathFromList| == |EdgePathToList| == |Edges|
    ensures forall k :: 0 <= k < |Edges| ==> Edges[k].pathFrom == EdgePathFromList[k] && Edges[k].pathTo == EdgePathToList[k]
  {
  }

  lemma PathColumns()
    ensures |PathIdList| == |PathCommandList| == |PathColorList| == |PathNodeLists| == |PathEdgeLists| == |Paths|
    ensures forall q :: 0 <= q < |Paths| ==>
              Paths[q].id == PathIdList[q] && Paths[q].command == PathCommandList[q] &&
              Paths[q].color == PathColorList[q] &&
              Paths[q].nodes == PathNodeLists[q] && Paths[q].edges == PathEdgeLists[q]
  {
  }

  lemma PathTailColumn()
    ensures |PathNodeTails| == |PathNodeLists|
    ensures forall q :: 0 <= q < |PathNodeLists| ==> |PathNodeLists[q]| >= 1 && PathNodeTails[q] == PathNodeLists[q][1..]
  {
  }

  lemma NodeIdListDistinct()
    ensures forall i, j :: 0 <= i < j < |NodeIdList| ==> NodeIdList[i] != NodeIdList[j]
  {
  }

  lemma EdgeIdListDistinct()
    ensures forall i, j :: 0 <= i < j < |EdgeIdList| ==> EdgeIdList[i] != EdgeIdList[j]
  {
  }

  lemma PathIdListDistinct()
    ensures forall i, j :: 0 <= i < j < |PathIdList| ==> PathIdList[i] != PathIdList[j]
  {
  }

  lemma PathCommandListDistinct()
    ensures forall i, j :: 0 <= i < j < |PathCommandList| ==> PathCommandList[i] != PathCommandList[j]
  {
  }

  lemma PathColorListKnown()
    ensures forall q :: 0 <= q < |PathColorList| ==> PathColorList[q] in PathColors
  {
  }

  lemma EvenMidHeights()
    ensures forall k :: 0 <= k < |EdgePathFromList| && k < |EdgePathToList| ==>
              EvenSum(EdgePathFromList[k], EdgePathToList[k])
  {
  }

  lemma EdgeEndIdsInGroup0()
    ensures forall k :: 0 <= k < 4 ==>
              EdgeEnds[k].0 < |NodeIdList| && EdgeEnds[k].1 < |NodeIdList| &&
              NodeIdList[EdgeEnds[k].0] == EdgeFromList[k] && NodeIdList[EdgeEnds[k].1] == EdgeToList[k]
  {
  }

  lemma EdgeEndIdsInGroup1()
    ensures forall k :: 4 <= k < 8 ==>
              EdgeEnds[k].0 < |NodeIdList| && EdgeEnds[k].1 < |NodeIdList| &&
              NodeIdList[EdgeEnds[k].0] == EdgeFromList[k] && NodeIdList[EdgeEnds[k].1] == EdgeToList[k]
  {
  }

  lemma EdgeEndIdsInGroup2()
    ensures forall k :: 8 <= k < 16 ==>
              EdgeEnds[k].0 < |NodeIdList| && EdgeEnds[k].1 < |NodeIdList| &&
              NodeIdList[EdgeEnds[k].0] == EdgeFromList[k] && NodeIdList[EdgeEnds[k].1] == EdgeToList[k]
  {
  }

  lemma EdgeEndIdsInGroup3()
    ensures forall k :: 16 <= k < 24 ==>
              EdgeEnds[k].0 < |NodeIdList| && EdgeEnds[k].1 < |NodeIdList| &&
              NodeIdList[EdgeEnds[k].0] == EdgeFromList[k] && NodeIdList[EdgeEnds[k].1] == EdgeToList[k]
  {
  }

  lemma EdgeEndIdsInGroup4()
    ensures forall k :: 24 <= k < 31 ==>
              EdgeEnds[k].0 < |NodeIdList| && EdgeEnds[k].1 < |NodeIdList| &&
              NodeIdList[EdgeEnds[k].0] == EdgeFromList[k] && NodeIdList[EdgeEnds[k].1] == EdgeToList[k]
  {
  }

  lemma EdgeEndPositionsInGroup0()
    ensures forall k :: 0 <= k < 4 ==>
              EdgeEnds[k].0 < |NodePositionList| && EdgeEnds[k].1 < |NodePositionList| &&
              NodePositionList[EdgeEnds[k].0] == EdgePathFromList[k] && NodePositionList[EdgeEnds[k].1] == EdgePathToList[k]
  {
  }

  lemma EdgeEndPositionsInGroup1()
    ensures forall k :: 4 <= k < 8 ==>
              EdgeEnds[k].0 < |NodePositionList| && EdgeEnds[k].1 < |NodePositionList| &&
              NodePositionList[EdgeEnds[k].0] == EdgePathFromList[k] && NodePositionList[EdgeEnds[k].1] == EdgePathToList[k]
  {
  }

  lemma EdgeEndPositionsInGroup2()
    ensures forall k :: 8 <= k < 16 ==>
              EdgeEnds[k].0 < |NodePositionList| && EdgeEnds[k].1 < |NodePositionList| &&
              NodePositionList[EdgeEnds[k].0] == EdgePathFromList[k] && NodePositionList[EdgeEnds[k].1] == EdgePathToList[k]
  {
  }

  lemma EdgeEndPositionsInGroup3()
    ensures forall k :: 16 <= k < 24 ==>
              EdgeEnds[k].0 < |NodePositionList| && EdgeEnds[k].1 < |NodePositionList| &&
              NodePositionList[EdgeEnds[k].0] == EdgePathFromList[k] && NodePositionList[EdgeEnds[k].1] == EdgePathToList[k]
  {
  }

  lemma EdgeEndPositionsInGroup4()
    ensures forall k :: 24 <= k < 31 ==>
              EdgeEnds[k].0 < |NodePositionList| && EdgeEnds[k].1 < |NodePositionList| &&
              NodePositionList[EdgeEnds[k].0] == EdgePathFromList[k] && NodePositionList[EdgeEnds[k].1] == EdgePathToList[k]
  {
  }

  lemma PathEdgeIdsInGroup0()
    ensures forall q :: 0 <= q < 6 ==>
              |PathEdgeIndices[q]| == |PathEdgeLists[q]| == |PathNodeLists[q]| - 1 && |PathEdgeLists[q]| >= 1
    ensures forall q, i :: 0 <= q < 6 && 0 <= i < |PathEdgeIndices[q]| ==>
              PathEdgeIndices[q][i] < |EdgeIdList| && i < |PathEdgeLists[q]| &&
              EdgeIdList[PathEdgeIndices[q][i]] == PathEdgeLists[q][i]
  {
  }

  lemma PathEdgeIdsInGroup1()
    ensures forall q :: 6 <= q < 12 ==>
              |PathEdgeIndices[q]| == |PathEdgeLists[q]| == |PathNodeLists[q]| - 1 && |PathEdgeLists[q]| >= 1
    ensures forall q, i :: 6 <= q < 12 && 0 <= i < |PathEdgeIndices[q]| ==>
              PathEdgeIndices[q][i] < |EdgeIdList| && i < |PathEdgeLists[q]| &&
              EdgeIdList[PathEdgeIndices[q][i]] == PathEdgeLists[q][i]
  {
  }

  lemma PathEdgeIdsInGroup2()
    ensures forall q :: 12 <= q < 17 ==>
              |PathEdgeIndices[q]| == |PathEdgeLists[q]| == |PathNodeLists[q]| - 1 && |PathEdgeLists[q]| >= 1
    ensures forall q, i :: 12 <= q < 17 && 0 <= i < |PathEdgeIndices[q]| ==>
              PathEdgeIndices[q][i] < |EdgeIdList| && i < |PathEdgeLists[q]| &&
              EdgeIdList[PathEdgeIndices[q][i]] == PathEdgeLists[q][i]
  {
  }

  lemma PathEdgeSourcesInGroup0()
    ensures forall q, i :: 0 <= q < 6 && 0 <= i < |PathEdgeIndices[q]| ==>
              PathEdgeIndices[q][i] < |EdgeFromList| && i < |PathNodeLists[q]| &&
              EdgeFromList[PathEdgeIndices[q][i]] == PathNodeLists[q][i]
  {
  }

  lemma PathEdgeSourcesInGroup1()
    ensures forall q, i :: 6 <= q < 12 && 0 <= i < |PathEdgeIndices[q]| ==>
              PathEdgeIndices[q][i] < |EdgeFromList| && i < |PathNodeLists[q]| &&
              EdgeFromList[PathEdgeIndices[q][i]] == PathNodeLists[q][i]
  {
  }

  lemma PathEdgeSourcesInGroup2()
    ensures forall q, i :: 12 <= q < 17 && 0 <= i < |PathEdgeIndices[q]| ==>
              PathEdgeIndices[q][i] < |EdgeFromList| && i < |PathNodeLists[q]| &&
              EdgeFromList[PathEdgeIndices[q][i]] == PathNodeLists[q][i]
  {
  }

  lemma PathEdgeTargetsInGroup0()
    ensures forall q, i :: 0 <= q < 6 && 0 <= i < |PathEdgeIndices[q]| ==>
              PathEdgeIndices[q][i] < |EdgeToList| && i < |PathNodeTails[q]| &&
              EdgeToList[PathEdgeIndices[q][i]] == PathNodeTails[q][i]
  {
  }

  lemma PathEdgeTargetsInGroup1()
    ensures forall q, i :: 6 <= q < 12 && 0 <= i < |PathEdgeIndices[q]| ==>
              PathEdgeIndices[q][i] < |EdgeToList| && i < |PathNodeTails[q]| &&
              EdgeToList[PathEdgeIndices[q][i]] == PathNodeTails[q][i]
  {
  }

  lemma PathEdgeTargetsInGroup2()
    ensures forall q, i :: 12 <= q < 17 && 0 <= i < |PathEdgeIndices[q]| ==>
              PathEdgeIndices[q][i] < |EdgeToList| && i < |PathNodeTails[q]| &&
              EdgeToList[PathEdgeIndices[q][i]] == PathNodeTails[q][i]
  {
  }
}
