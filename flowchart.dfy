/**
 * The command decision flowchart (src/data/guides/flowchart.ts): constant node,
 * edge and path tables, the SVG path builder for edges, and the lookups over
 * the path table.
 */
module Flowchart {
  import opened Wrappers
  import opened Text

  datatype NodeType = Start | Decision | Command

  datatype Point = Point(x: int, y: int)

  datatype FlowchartNode = FlowchartNode(id: string, kind: NodeType, labelText: string,
                                         description: Option<string>, position: Point)

  /** An edge.  The table writes each edge's `path` as a call of `generatePath`
      on two literal points; the edge keeps those two points, and `path()` is
      the string the call produces. */
  datatype FlowchartEdge = FlowchartEdge(id: string, from: string, to: string, labelText: Option<string>,
                                         pathFrom: Point, pathTo: Point, labelX: Option<int>, labelY: Option<int>)
  {
    /** The `d` attribute of the edge's SVG path. */
    function path(): string {
      GeneratePath(pathFrom, pathTo)
    }
  }

  /** A complete journey: its node ids and edge ids in order. */
  datatype FlowchartPath = FlowchartPath(id: string, name: string, nodes: seq<string>, edges: seq<string>,
                                         command: string, description: string, color: string)

  datatype PathColor = PathColor(bg: string, text: string, glow: string)

  // ---------------------------------------------------------------------------
  // generatePath

  /** How a template literal prints `n / 2` for an integer `n`: an integer, or
      one decimal `.5`. */
  function HalfText(n: int): string {
    if n % 2 == 0 then IntToString(n / 2)
    else (if n < 0 then "-" else "") + NatToString((if n < 0 then -n else n) / 2) + ".5"
  }

  /** `generatePath(from, to)`: a cubic curve from 25 below `from` to 25 above
      `to`, both control points at the middle height. */
  function GeneratePath(from: Point, to: Point): string {
    "M " + IntToString(from.x) + " " + IntToString(from.y + 25) +
    " C " + IntToString(from.x) + " " + HalfText(from.y + to.y) +
    ", " + IntToString(to.x) + " " + HalfText(from.y + to.y) +
    ", " + IntToString(to.x) + " " + IntToString(to.y - 25)
  }

  /** `HalfText` prints the exact half: the integer itself when `n` is even,
      otherwise the signed whole part followed by `.5`. */
  lemma HalfTextValue(n: int)
    ensures n % 2 == 0 ==> 2 * (n / 2) == n && ParseInt(HalfText(n)) == Some(n / 2)
    ensures n % 2 != 0 ==> exists w: nat ::
              2 * w + 1 == (if n < 0 then -n else n) &&
              HalfText(n) == (if n < 0 then "-" else "") + NatToString(w) + ".5"
  {
    if n % 2 == 0 {
      IntRoundTrip(n / 2);
    } else {
      var w: nat := (if n < 0 then -n else n) / 2;
      assert 2 * w + 1 == (if n < 0 then -n else n);
      assert HalfText(n) == (if n < 0 then "-" else "") + NatToString(w) + ".5";
    }
  }

  /** The heights of two points add up to an even number: the middle height
      `generatePath` prints between them is a whole number. */
  predicate EvenSum(p: Point, q: Point) {
    (p.y + q.y) % 2 == 0
  }

  // ---------------------------------------------------------------------------
  // The tables

  const Nodes: seq<FlowchartNode> := [
    FlowchartNode("start", Start, "🎯 What do you want?", None, Point(700, 50)),
    FlowchartNode("new-project", Decision, "New project?", None, Point(90, 160)),
    FlowchartNode("existing-project", Decision, "Join existing?", None, Point(265, 160)),
    FlowchartNode("build-feature", Decision, "Build feature?", None, Point(440, 160)),
    FlowchartNode("fix-something", Decision, "Fix something?", None, Point(615, 160)),
    FlowchartNode("git-ops", Decision, "Git ops?", None, Point(790, 160)),
    FlowchartNode("docs-design", Decision, "Docs/Design?", None, Point(1005, 160)),
    FlowchartNode("need-help", Decision, "Need help?", None, Point(1220, 160)),
    FlowchartNode("has-docs", Decision, "Has docs?", None, Point(265, 280)),
    FlowchartNode("know-what", Decision, "Know what?", None, Point(440, 280)),
    FlowchartNode("know-issue", Decision, "Know issue?", None, Point(615, 280)),
    FlowchartNode("help-type", Decision, "What type?", None, Point(1220, 280)),
    FlowchartNode("speed-safety", Decision, "Speed/Safety?", None, Point(520, 400)),
    FlowchartNode("cmd-bootstrap", Command, "/bootstrap", Some("Full project initialization ⚡⚡⚡⚡⚡"), Point(90, 280)),
    FlowchartNode("cmd-docs-init", Command, "/docs:init", Some("Analyze codebase, create docs ⚡⚡⚡⚡"), Point(160, 400)),
    FlowchartNode("cmd-scout", Command, "/scout", Some("Explore codebase structure"), Point(270, 400)),
    FlowchartNode("cmd-brainstorm", Command, "/brainstorm", Some("Collaborative ideation ⚡⚡"), Point(380, 400)),
    FlowchartNode("cmd-cook", Command, "/cook", Some("All-in-one: research → implement ⚡⚡⚡"), Point(610, 600)),
    FlowchartNode("cmd-plan", Command, "/plan", Some("Create detailed plan ⚡⚡⚡"), Point(500, 520)),
    FlowchartNode("cmd-code", Command, "/code @plan.md", Some("Execute plan step by step ⚡⚡⚡"), Point(500, 640)),
    FlowchartNode("cmd-debug", Command, "/debug", Some("Find root cause ⚡"), Point(720, 400)),
    FlowchartNode("cmd-fix", Command, "/fix", Some("Smart routing to fix commands ⚡⚡"), Point(650, 500)),
    FlowchartNode("cmd-git-cm", Command, "/git:cm", Some("Commit only (safe)"), Point(735, 280)),
    FlowchartNode("cmd-git-cp", Command, "/git:cp", Some("Commit + Push"), Point(845, 280)),
    FlowchartNode("cmd-git-pr", Command, "/git:pr", Some("Create pull request"), Point(790, 340)),
    FlowchartNode("cmd-docs", Command, "/docs:*", Some("Documentation commands"), Point(955, 280)),
    FlowchartNode("cmd-design", Command, "/design:*", Some("Design commands"), Point(1065, 280)),
    FlowchartNode("cmd-ck-help", Command, "/ck-help", Some("General ClaudeKit help"), Point(1110, 400)),
    FlowchartNode("cmd-ask", Command, "/ask", Some("Architectural advice"), Point(1220, 400)),
    FlowchartNode("cmd-coding-level", Command, "/coding-level", Some("Slow down explanations"), Point(1380, 400))
  ]

  const Edges: seq<FlowchartEdge> := [
    FlowchartEdge("e-start-new-project", "start", "new-project", None,
                  Point(700, 50), Point(90, 160), None, None),
    FlowchartEdge("e-start-existing-project", "start", "existing-project", None,
                  Point(700, 50), Point(265, 160), None, None),
    FlowchartEdge("e-start-build-feature", "start", "build-feature", None,
                  Point(700, 50), Point(440, 160), None, None),
    FlowchartEdge("e-start-fix-something", "start", "fix-something", None,
                  Point(700, 50), Point(615, 160), None, None),
    FlowchartEdge("e-start-git-ops", "start", "git-ops", None,
                  Point(700, 50), Point(790, 160), None, None),
    FlowchartEdge("e-start-docs-design", "start", "docs-design", None,
                  Point(700, 50), Point(1005, 160), None, None),
    FlowchartEdge("e-start-need-help", "start", "need-help", None,
                  Point(700, 50), Point(1220, 160), None, None),
    FlowchartEdge("e-new-project-bootstrap", "new-project", "cmd-bootstrap", None,
                  Point(90, 160), Point(90, 280), None, None),
    FlowchartEdge("e-existing-project-hasdocs", "existing-project", "has-docs", None,
                  Point(265, 160), Point(265, 280), None, None),
    FlowchartEdge("e-hasdocs-docsinit", "has-docs", "cmd-docs-init", Some("No"),
                  Point(265, 280), Point(160, 400), Some(195), Some(340)),
    FlowchartEdge("e-hasdocs-scout", "has-docs", "cmd-scout", Some("Yes"),
                  Point(265, 280), Point(270, 400), Some(280), Some(340)),
    FlowchartEdge("e-build-feature-know", "build-feature", "know-what", None,
                  Point(440, 160), Point(440, 280), None, None),
    FlowchartEdge("e-know-brainstorm", "know-what", "cmd-brainstorm", Some("No"),
                  Point(440, 280), Point(380, 400), Some(390), Some(340)),
    FlowchartEdge("e-brainstorm-plan", "cmd-brainstorm", "cmd-plan", Some("Ready"),
                  Point(380, 400), Point(500, 520), Some(440), Some(460)),
    FlowchartEdge("e-know-speed-safety", "know-what", "speed-safety", Some("Yes"),
                  Point(440, 280), Point(520, 400), Some(495), Some(340)),
    FlowchartEdge("e-speed-cook", "speed-safety", "cmd-cook", Some("Speed"),
                  Point(520, 400), Point(610, 600), Some(580), Some(500)),
    FlowchartEdge("e-safety-plan", "speed-safety", "cmd-plan", Some("Safety"),
                  Point(520, 400), Point(500, 520), Some(525), Some(460)),
    FlowchartEdge("e-plan-code", "cmd-plan", "cmd-code", Some("Approve"),
                  Point(500, 520), Point(500, 640), Some(520), Some(580)),
    FlowchartEdge("e-fix-something-know", "fix-something", "know-issue", None,
                  Point(615, 160), Point(615, 280), None, None),
    FlowchartEdge("e-know-debug", "know-issue", "cmd-debug", Some("No"),
                  Point(615, 280), Point(720, 400), Some(650), Some(340)),
    FlowchartEdge("e-know-fix", "know-issue", "cmd-fix", Some("Yes"),
                  Point(615, 280), Point(650, 500), Some(650), Some(390)),
    FlowchartEdge("e-debug-fix", "cmd-debug", "cmd-fix", Some("Found"),
                  Point(720, 400), Point(650, 500), Some(700), Some(450)),
    FlowchartEdge("e-git-cm", "git-ops", "cmd-git-cm", None,
                  Point(790, 160), Point(735, 280), None, None),
    FlowchartEdge("e-git-cp", "git-ops", "cmd-git-cp", None,
                  Point(790, 160), Point(845, 280), None, None),
    FlowchartEdge("e-git-pr", "git-ops", "cmd-git-pr", None,
                  Point(790, 160), Point(790, 340), None, None),
    FlowchartEdge("e-docs-design-docs", "docs-design", "cmd-docs", None,
                  Point(1005, 160), Point(955, 280), None, None),
    FlowchartEdge("e-docs-design-design", "docs-design", "cmd-design", None,
                  Point(1005, 160), Point(1065, 280), None, None),
    FlowchartEdge("e-help-type", "need-help", "help-type", None,
                  Point(1220, 160), Point(1220, 280), None, None),
    FlowchartEdge("e-help-ck", "help-type", "cmd-ck-help", Some("CK"),
                  Point(1220, 280), Point(1110, 400), Some(1145), Some(340)),
    FlowchartEdge("e-help-ask", "help-type", "cmd-ask", Some("Tech"),
                  Point(1220, 280), Point(1220, 400), Some(1235), Some(340)),
    FlowchartEdge("e-help-coding", "help-type", "cmd-coding-level", Some("Learn"),
                  Point(1220, 280), Point(1380, 400), Some(1320), Some(340))
  ]

  const Paths: seq<FlowchartPath> := [
    FlowchartPath("path-bootstrap", "Start New Project",
                  ["start", "new-project", "cmd-bootstrap"],
                  ["e-start-new-project", "e-new-project-bootstrap"],
                  "/bootstrap", "Full project initialization: git, tech stack, planning, design, implementation", "amber"),
    FlowchartPath("path-docs-init", "Join Undocumented Project",
                  ["start", "existing-project", "has-docs", "cmd-docs-init"],
                  ["e-start-existing-project", "e-existing-project-hasdocs", "e-hasdocs-docsinit"],
                  "/docs:init", "Analyze existing codebase and create documentation", "cyan"),
    FlowchartPath("path-scout", "Explore Documented Project",
                  ["start", "existing-project", "has-docs", "cmd-scout"],
                  ["e-start-existing-project", "e-existing-project-hasdocs", "e-hasdocs-scout"],
                  "/scout", "Fast parallel codebase search to find relevant files", "cyan"),
    FlowchartPath("path-cook", "Fast Implementation",
                  ["start", "build-feature", "know-what", "speed-safety", "cmd-cook"],
                  ["e-start-build-feature", "e-build-feature-know", "e-know-speed-safety", "e-speed-cook"],
                  "/cook", "All-in-one: research → plan → implement → test → review (speed focus)", "emerald"),
    FlowchartPath("path-plan", "Safe Planning",
                  ["start", "build-feature", "know-what", "speed-safety", "cmd-plan"],
                  ["e-start-build-feature", "e-build-feature-know", "e-know-speed-safety", "e-safety-plan"],
                  "/plan", "Plan → Refine & Approve → /clear → /code: detailed review & refine before coding (safety focus)", "purple"),
    FlowchartPath("path-code", "Execute Plan",
                  ["cmd-plan", "cmd-code"],
                  ["e-plan-code"],
                  "/code @plan.md", "Execute an approved plan step by step", "blue"),
    FlowchartPath("path-brainstorm", "Brainstorm Ideas",
                  ["start", "build-feature", "know-what", "cmd-brainstorm", "cmd-plan"],
                  ["e-start-build-feature", "e-build-feature-know", "e-know-brainstorm", "e-brainstorm-plan"],
                  "/brainstorm", "Ideation when you don't know what to build (then → /plan → /code)", "violet"),
    FlowchartPath("path-debug", "Debug Issue",
                  ["start", "fix-something", "know-issue", "cmd-debug"],
                  ["e-start-fix-something", "e-fix-something-know", "e-know-debug"],
                  "/debug", "Analyze → Find root cause (when you don't know what's wrong)", "orange"),
    FlowchartPath("path-fix", "Fix Known Issue",
                  ["start", "fix-something", "know-issue", "cmd-fix"],
                  ["e-start-fix-something", "e-fix-something-know", "e-know-fix"],
                  "/fix", "Intelligent router to specialized fix commands (when you know the issue)", "red"),
    FlowchartPath("path-git-cm", "Commit Only",
                  ["start", "git-ops", "cmd-git-cm"],
                  ["e-start-git-ops", "e-git-cm"],
                  "/git:cm", "Stage all and commit (no push) - safe for experimentation", "indigo"),
    FlowchartPath("path-git-cp", "Commit & Push",
                  ["start", "git-ops", "cmd-git-cp"],
                  ["e-start-git-ops", "e-git-cp"],
                  "/git:cp", "Stage, commit, and push - ready to share changes", "indigo"),
    FlowchartPath("path-git-pr", "Pull Request",
                  ["start", "git-ops", "cmd-git-pr"],
                  ["e-start-git-ops", "e-git-pr"],
                  "/git:pr", "Create pull request for code review", "indigo"),
    FlowchartPath("path-docs", "Documentation",
                  ["start", "docs-design", "cmd-docs"],
                  ["e-start-docs-design", "e-docs-design-docs"],
                  "/docs:*", "Documentation commands: init, summarize, update", "amber"),
    FlowchartPath("path-design", "Design Commands",
                  ["start", "docs-design", "cmd-design"],
                  ["e-start-docs-design", "e-docs-design-design"],
                  "/design:*", "Design commands: describe, screenshot, video, fast, good", "pink"),
    FlowchartPath("path-ck-help", "ClaudeKit Help",
                  ["start", "need-help", "help-type", "cmd-ck-help"],
                  ["e-start-need-help", "e-help-type", "e-help-ck"],
                  "/ck-help", "General ClaudeKit documentation and command help", "blue"),
    FlowchartPath("path-ask", "Architectural Advice",
                  ["start", "need-help", "help-type", "cmd-ask"],
                  ["e-start-need-help", "e-help-type", "e-help-ask"],
                  "/ask", "Technical and architectural consultation from expert", "blue"),
    FlowchartPath("path-coding-level", "Learning Mode",
                  ["start", "need-help", "help-type", "cmd-coding-level"],
                  ["e-start-need-help", "e-help-type", "e-help-coding"],
                  "/coding-level", "Slow down explanations for learning and understanding", "cyan")
  ]

  const PathColors: map<string, PathColor> := map[
    "purple" := PathColor("rgba(147, 51, 234, 0.2)", "#A855F7", "rgba(147, 51, 234, 0.6)"),
    "blue" := PathColor("rgba(59, 130, 246, 0.2)", "#3B82F6", "rgba(59, 130, 246, 0.6)"),
    "cyan" := PathColor("rgba(6, 182, 212, 0.2)", "#06B6D4", "rgba(6, 182, 212, 0.6)"),
    "orange" := PathColor("rgba(249, 115, 22, 0.2)", "#F97316", "rgba(249, 115, 22, 0.6)"),
    "red" := PathColor("rgba(239, 68, 68, 0.2)", "#EF4444", "rgba(239, 68, 68, 0.6)"),
    "green" := PathColor("rgba(34, 197, 94, 0.2)", "#22C55E", "rgba(34, 197, 94, 0.6)"),
    "amber" := PathColor("rgba(245, 158, 11, 0.2)", "#F59E0B", "rgba(245, 158, 11, 0.6)"),
    "pink" := PathColor("rgba(236, 72, 153, 0.2)", "#EC4899", "rgba(236, 72, 153, 0.6)"),
    "indigo" := PathColor("rgba(99, 102, 241, 0.2)", "#6366F1", "rgba(99, 102, 241, 0.6)"),
    "emerald" := PathColor("rgba(16, 185, 129, 0.2)", "#10B981", "rgba(16, 185, 129, 0.6)"),
    "violet" := PathColor("rgba(139, 92, 246, 0.2)", "#8B5CF6", "rgba(139, 92, 246, 0.6)")
  ]

  const ViewBox: string := "0 0 1500 720"

  // ---------------------------------------------------------------------------
  // Lookups

  /** Index of the first element that satisfies `p`: the search behind
      `Array.prototype.find` and the lookups by id. */
  function FirstIndex<T>(s: seq<T>, p: T -> bool): (r: Option<nat>)
    ensures r.Some? ==> r.value < |s| && p(s[r.value]) && forall k :: 0 <= k < r.value ==> !p(s[k])
    ensures r.None? ==> forall k :: 0 <= k < |s| ==> !p(s[k])
  {
    if |s| == 0 then None
    else if p(s[0]) then Some(0)
    else match FirstIndex(s[1..], p)
      case Some(k) => Some(k + 1)
      case None => None
  }

  /** Index of the first node with the given id. */
  function NodeIndex(ns: seq<FlowchartNode>, id: string): (r: Option<nat>)
    ensures r.Some? ==> r.value < |ns| && ns[r.value].id == id && forall k :: 0 <= k < r.value ==> ns[k].id != id
    ensures r.None? ==> forall k :: 0 <= k < |ns| ==> ns[k].id != id
  {
    FirstIndex(ns, (n: FlowchartNode) => n.id == id)
  }

  /** Index of the first edge with the given id. */
  function EdgeIndex(es: seq<FlowchartEdge>, id: string): (r: Option<nat>)
    ensures r.Some? ==> r.value < |es| && es[r.value].id == id && forall k :: 0 <= k < r.value ==> es[k].id != id
    ensures r.None? ==> forall k :: 0 <= k < |es| ==> es[k].id != id
  {
    FirstIndex(es, (e: FlowchartEdge) => e.id == id)
  }

  /** Index of the first path with the given command (`Array.prototype.find`). */
  function CommandIndex(ps: seq<FlowchartPath>, command: string): (r: Option<nat>)
    ensures r.Some? ==> r.value < |ps| && ps[r.value].command == command &&
                        forall k :: 0 <= k < r.value ==> ps[k].command != command
    ensures r.None? ==> forall k :: 0 <= k < |ps| ==> ps[k].command != command
  {
    FirstIndex(ps, (q: FlowchartPath) => q.command == command)
  }

  /** In a table whose commands are unique, each path's command finds it. */
  lemma CommandIndexOfUnique(ps: seq<FlowchartPath>, w: nat)
    requires w < |ps|
    requires forall i, j :: 0 <= i < j < |ps| ==> ps[i].command != ps[j].command
    ensures CommandIndex(ps, ps[w].command) == Some(w)
  {
  }

  /** `getPathByCommand`: the first path whose command is `command`, if any. */
  function GetPathByCommand(command: string): (r: Option<FlowchartPath>)
    ensures r.Some? ==> r.value in Paths && r.value.command == command
    ensures r.None? <==> forall p :: p in Paths ==> p.command != command
  {
    match CommandIndex(Paths, command)
    case Some(k) => Some(Paths[k])
    case None => None
  }

  /** `Array.prototype.filter` over paths. */
  function Filter(ps: seq<FlowchartPath>, keep: FlowchartPath -> bool): (r: seq<FlowchartPath>)
    ensures |r| <= |ps|
    ensures forall p :: p in r <==> p in ps && keep(p)
  {
    if |ps| == 0 then []
    else if keep(ps[0]) then [ps[0]] + Filter(ps[1..], keep)
    else Filter(ps[1..], keep)
  }

  /** Filtering a concatenation filters each part: the table order is kept. */
  lemma {:induction false} FilterAppend(p1: seq<FlowchartPath>, p2: seq<FlowchartPath>, keep: FlowchartPath -> bool)
    ensures Filter(p1 + p2, keep) == Filter(p1, keep) + Filter(p2, keep)
  {
    if |p1| == 0 {
      assert p1 + p2 == p2;
    } else {
      assert (p1 + p2)[1..] == p1[1..] + p2;
      FilterAppend(p1[1..], p2, keep);
    }
  }

  /** `getPathsContainingNode`: the paths through the node, in table order. */
  function GetPathsContainingNode(nodeId: string): (r: seq<FlowchartPath>)
    ensures forall p :: p in r <==> p in Paths && nodeId in p.nodes
  {
    Filter(Paths, (p: FlowchartPath) => nodeId in p.nodes)
  }

  /** `getPathsContainingEdge`: the paths along the edge, in table order. */
  function GetPathsContainingEdge(edgeId: string): (r: seq<FlowchartPath>)
    ensures forall p :: p in r <==> p in Paths && edgeId in p.edges
  {
    Filter(Paths, (p: FlowchartPath) => edgeId in p.edges)
  }

  /** The position of the node with the given id. */
  function PositionOf(id: string): (r: Option<Point>)
    ensures r.Some? <==> exists k :: 0 <= k < |Nodes| && Nodes[k].id == id
    ensures r.Some? ==> exists k :: 0 <= k < |Nodes| && Nodes[k].id == id && Nodes[k].position == r.value
  {
    match NodeIndex(Nodes, id)
    case Some(k) => Some(Nodes[k].position)
    case None => None
  }
}
