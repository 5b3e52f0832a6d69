/**
 Edge creation and validation (backend/app/edge_ops.py), with the two deletions that touch the
 edge table (an edge, or an agent together with the edges at both its ends).
 */
module EdgeOps {
  import opened Common
  import opened Schema

  datatype EdgeError = BadType | BadIterations | SelfEdge | WrongProject | OutputTaken | Cycle

  // --- handoff paths: the reference notion the cycle check is measured against ---

  ghost predicate HandoffStep(edges: seq<Edge>, a: AgentId, b: AgentId) {
    exists e :: e in edges && e.src == a && e.dst == b && e.kind.Handoff?
  }

  ghost predicate IsHandoffPath(edges: seq<Edge>, p: seq<AgentId>) {
    |p| >= 1 && forall i :: 0 <= i < |p| - 1 ==> HandoffStep(edges, p[i], p[i + 1])
  }

  // A path of zero or more handoffs.
  ghost predicate Reaches(edges: seq<Edge>, a: AgentId, b: AgentId) {
    exists p :: IsHandoffPath(edges, p) && p[0] == a && p[|p| - 1] == b
  }

  // A path of at least one handoff.
  ghost predicate Leads(edges: seq<Edge>, a: AgentId, b: AgentId) {
    exists p :: IsHandoffPath(edges, p) && |p| >= 2 && p[0] == a && p[|p| - 1] == b
  }

  ghost predicate HandoffAcyclic(edges: seq<Edge>) {
    forall a :: !Leads(edges, a, a)
  }

  ghost predicate OneOutgoing(edges: seq<Edge>) {
    forall i, j :: 0 <= i < j < |edges| ==> edges[i].src != edges[j].src
  }

  function InProject(edges: seq<Edge>, project: ProjectId): (rows: seq<Edge>)
    ensures forall e :: e in rows <==> e in edges && e.project == project
  {
    if edges == [] then []
    else
      var rest := InProject(edges[1..], project);
      assert edges == [edges[0]] + edges[1..];
      if edges[0].project == project then [edges[0]] + rest else rest
  }

  // What the schema and the validator together keep true of the edge table.
  ghost predicate ValidEdges(agents: map<AgentId, Agent>, edges: seq<Edge>) {
    && OneOutgoing(edges)
    && HandoffAcyclic(edges)
    && (forall e :: e in edges ==> EdgeRowOk(agents, e))
  }

  ghost predicate EdgeRowOk(agents: map<AgentId, Agent>, e: Edge) {
    && e.src != e.dst
    && e.src in agents && agents[e.src].project == e.project
    && e.dst in agents && agents[e.dst].project == e.project
    && (e.kind.ReviewLoop? ==> 1 <= e.kind.maxIterations <= 10)
  }

  // --- lemmas about paths ---

  lemma StepLeads(edges: seq<Edge>, a: AgentId, b: AgentId)
    requires HandoffStep(edges, a, b)
    ensures Leads(edges, a, b)
  {
    assert IsHandoffPath(edges, [a, b]);
  }

  lemma ReachesRefl(edges: seq<Edge>, a: AgentId)
    ensures Reaches(edges, a, a)
  {
    assert IsHandoffPath(edges, [a]);
  }

  lemma PathConcat(edges: seq<Edge>, p: seq<AgentId>, q: seq<AgentId>)
    requires IsHandoffPath(edges, p) && IsHandoffPath(edges, q)
    requires p[|p| - 1] == q[0]
    ensures IsHandoffPath(edges, p + q[1..])
    ensures (p + q[1..])[|p + q[1..]| - 1] == q[|q| - 1]
  {
    var r := p + q[1..];
    forall i | 0 <= i < |r| - 1
      ensures HandoffStep(edges, r[i], r[i + 1])
    {
      if i < |p| - 1 {
        assert HandoffStep(edges, p[i], p[i + 1]);
      } else {
        assert r[i] == q[i - (|p| - 1)];
        assert HandoffStep(edges, q[i - (|p| - 1)], q[i - (|p| - 1) + 1]);
      }
    }
  }

  lemma ReachesTransitive(edges: seq<Edge>, a: AgentId, b: AgentId, c: AgentId)
    requires Reaches(edges, a, b) && Reaches(edges, b, c)
    ensures Reaches(edges, a, c)
  {
    var p :| IsHandoffPath(edges, p) && p[0] == a && p[|p| - 1] == b;
    var q :| IsHandoffPath(edges, q) && q[0] == b && q[|q| - 1] == c;
    PathConcat(edges, p, q);
    assert (p + q[1..])[0] == a;
  }

  lemma ReachesThenStep(edges: seq<Edge>, a: AgentId, b: AgentId, c: AgentId)
    requires Reaches(edges, a, b) && HandoffStep(edges, b, c)
    ensures Leads(edges, a, c)
  {
    var p :| IsHandoffPath(edges, p) && p[0] == a && p[|p| - 1] == b;
    assert IsHandoffPath(edges, [b, c]);
    PathConcat(edges, p, [b, c]);
    var r := p + [b, c][1..];
    assert r[0] == a && |r| >= 2;
  }

  lemma ReachesDistinctLeads(edges: seq<Edge>, a: AgentId, b: AgentId)
    requires Reaches(edges, a, b) && a != b
    ensures Leads(edges, a, b)
  {
    var p :| IsHandoffPath(edges, p) && p[0] == a && p[|p| - 1] == b;
    assert |p| >= 2;
  }

  lemma NoEdgesNoPath()
    ensures forall a, b :: !Leads([], a, b)
  {
    forall p: seq<AgentId> | |p| >= 2
      ensures !IsHandoffPath([], p)
    {
      assert !HandoffStep([], p[0], p[0 + 1]);
    }
  }

  // Fewer edges, fewer paths.
  lemma SubtableKeepsAcyclic(small: seq<Edge>, big: seq<Edge>)
    requires forall e :: e in small ==> e in big
    requires HandoffAcyclic(big)
    ensures HandoffAcyclic(small)
  {
    forall a | Leads(small, a, a)
      ensures false
    {
      var p :| IsHandoffPath(small, p) && |p| >= 2 && p[0] == a && p[|p| - 1] == a;
      assert IsHandoffPath(big, p);
      assert Leads(big, a, a);
    }
  }

  // Every handoff path that starts in a project uses only that project's rows.
  lemma {:induction false} PathStaysInProject(
    agents: map<AgentId, Agent>, edges: seq<Edge>, project: ProjectId, p: seq<AgentId>)
    requires forall e :: e in edges ==> EdgeRowOk(agents, e)
    requires IsHandoffPath(edges, p)
    requires p[0] in agents && agents[p[0]].project == project
    ensures IsHandoffPath(InProject(edges, project), p)
    decreases |p|
  {
    if |p| > 1 {
      assert HandoffStep(edges, p[0], p[0 + 1]);
      var e :| e in edges && e.src == p[0] && e.dst == p[1] && e.kind.Handoff?;
      assert e in InProject(edges, project);
      var q := p[1..];
      assert IsHandoffPath(edges, q) by {
        forall i | 0 <= i < |q| - 1
          ensures HandoffStep(edges, q[i], q[i + 1])
        {
          assert HandoffStep(edges, p[i + 1], p[i + 2]);
        }
      }
      PathStaysInProject(agents, edges, project, q);
      forall i | 0 <= i < |p| - 1
        ensures HandoffStep(InProject(edges, project), p[i], p[i + 1])
      {
        if i > 0 {
          assert HandoffStep(InProject(edges, project), q[i - 1], q[i]);
        }
      }
    }
  }

  lemma LeadsWithinProject(agents: map<AgentId, Agent>, edges: seq<Edge>, a: AgentId, b: AgentId)
    requires forall e :: e in edges ==> EdgeRowOk(agents, e)
    requires a in agents
    ensures Leads(edges, a, b) <==> Leads(InProject(edges, agents[a].project), a, b)
  {
    var rows := InProject(edges, agents[a].project);
    if Leads(edges, a, b) {
      var p :| IsHandoffPath(edges, p) && |p| >= 2 && p[0] == a && p[|p| - 1] == b;
      PathStaysInProject(agents, edges, agents[a].project, p);
    }
    if Leads(rows, a, b) {
      var p :| IsHandoffPath(rows, p) && |p| >= 2 && p[0] == a && p[|p| - 1] == b;
      assert IsHandoffPath(edges, p);
    }
  }

  // A path through one new row either was there before, or goes through the new row.
  lemma {:induction false} PathThroughNewRow(edges: seq<Edge>, e: Edge, p: seq<AgentId>)
    requires e.kind.Handoff?
    requires IsHandoffPath(edges + [e], p)
    ensures Reaches(edges, p[0], p[|p| - 1])
         || (|p| >= 2 && Reaches(edges, p[0], e.src) && Reaches(edges, e.dst, p[|p| - 1]))
    ensures |p| >= 2 && !(Reaches(edges, p[0], e.src) && Reaches(edges, e.dst, p[|p| - 1]))
         ==> Leads(edges, p[0], p[|p| - 1])
    decreases |p|
  {
    if |p| == 1 {
      ReachesRefl(edges, p[0]);
    } else {
      var q := p[..|p| - 1];
      var y := q[|q| - 1];
      assert IsHandoffPath(edges + [e], q) by {
        forall i | 0 <= i < |q| - 1
          ensures HandoffStep(edges + [e], q[i], q[i + 1])
        {
          assert HandoffStep(edges + [e], p[i], p[i + 1]);
        }
      }
      PathThroughNewRow(edges, e, q);
      assert HandoffStep(edges + [e], p[|p| - 2], p[|p| - 2 + 1]);
      if HandoffStep(edges, y, p[|p| - 1]) {
        StepLeads(edges, y, p[|p| - 1]);
        if Reaches(edges, p[0], y) {
          ReachesThenStep(edges, p[0], y, p[|p| - 1]);
        }
        if |q| >= 2 && Reaches(edges, e.dst, y) {
          ReachesThenStep(edges, e.dst, y, p[|p| - 1]);
        }
      } else {
        assert y == e.src && p[|p| - 1] == e.dst;
        ReachesRefl(edges, e.dst);
      }
    }
  }

  // Adding a handoff keeps the graph acyclic exactly when its target does not lead back.
  lemma AddHandoffAcyclicIff(edges: seq<Edge>, e: Edge)
    requires HandoffAcyclic(edges) && e.kind.Handoff? && e.src != e.dst
    ensures HandoffAcyclic(edges + [e]) <==> !Leads(edges, e.dst, e.src)
  {
    if Leads(edges, e.dst, e.src) {
      var p :| IsHandoffPath(edges, p) && |p| >= 2 && p[0] == e.dst && p[|p| - 1] == e.src;
      assert IsHandoffPath(edges + [e], p);
      assert Reaches(edges + [e], e.dst, e.src);
      assert e in edges + [e];
      assert HandoffStep(edges + [e], e.src, e.dst);
      ReachesThenStep(edges + [e], e.dst, e.src, e.dst);
    } else {
      forall a | Leads(edges + [e], a, a)
        ensures false
      {
        var p :| IsHandoffPath(edges + [e], p) && |p| >= 2 && p[0] == a && p[|p| - 1] == a;
        PathThroughNewRow(edges, e, p);
        assert !Leads(edges, a, a);
        ReachesTransitive(edges, e.dst, a, e.src);
        ReachesDistinctLeads(edges, e.dst, e.src);
      }
    }
  }

  lemma AddReviewAcyclic(edges: seq<Edge>, e: Edge)
    requires HandoffAcyclic(edges) && e.kind.ReviewLoop?
    ensures HandoffAcyclic(edges + [e])
  {
    forall a | Leads(edges + [e], a, a)
      ensures false
    {
      var p :| IsHandoffPath(edges + [e], p) && |p| >= 2 && p[0] == a && p[|p| - 1] == a;
      forall i | 0 <= i < |p| - 1
        ensures HandoffStep(edges, p[i], p[i + 1])
      {
        assert HandoffStep(edges + [e], p[i], p[i + 1]);
      }
      assert IsHandoffPath(edges, p);
      assert Leads(edges, a, a);
    }
  }

  // --- the cycle check ---

  // A set that holds the start, is closed under handoffs and never steps to the goal, refutes a path.
  lemma {:induction false} ClosedSetBlocks(
    edges: seq<Edge>, closed: set<AgentId>, goal: AgentId, p: seq<AgentId>)
    requires forall a, b :: a in closed && HandoffStep(edges, a, b) ==> b in closed && b != goal
    requires IsHandoffPath(edges, p) && p[0] in closed
    ensures p[|p| - 1] in closed
    ensures |p| >= 2 ==> p[|p| - 1] != goal
    decreases |p|
  {
    if |p| >= 2 {
      var q := p[..|p| - 1];
      forall i | 0 <= i < |q| - 1
        ensures HandoffStep(edges, q[i], q[i + 1])
      {
        assert HandoffStep(edges, p[i], p[i + 1]);
      }
      ClosedSetBlocks(edges, closed, goal, q);
      assert HandoffStep(edges, p[|p| - 2], p[|p| - 2 + 1]);
    }
  }

  /** The walk of the validator: follow outgoing handoffs from `to` and report whether `from` is met. */
  method CreatesHandoffCycle(db: Session, project: ProjectId, from: AgentId, to: AgentId)
    returns (cycle: bool)
    requires OneOutgoing(db.edges)
    ensures cycle <==> Leads(InProject(db.edges, project), to, from)
  {
    var rows := InProject(db.edges, project);
    RowsKeepOneOutgoing(db.edges, project);
    var out: map<AgentId, (AgentId, EdgeKind)> := map[];
    for i := 0 to |rows|
      invariant forall a :: a in out <==> exists j :: 0 <= j < i && rows[j].src == a
      invariant forall j :: 0 <= j < i ==> out[rows[j].src] == (rows[j].dst, rows[j].kind)
    {
      out := out[rows[i].src := (rows[i].dst, rows[i].kind)];
    }
    assert forall a: AgentId, b: AgentId :: HandoffStep(rows, a, b) <==> a in out && out[a] == (b, Handoff);
    var cur := to;
    var seen: set<AgentId> := {};
    ReachesRefl(rows, to);
    while cur in out && cur !in seen
      invariant seen <= out.Keys
      invariant to in seen + {cur}
      invariant Reaches(rows, to, cur)
      invariant forall a, b :: a in seen && HandoffStep(rows, a, b) ==> b in seen + {cur} && b != from
      decreases out.Keys - seen
    {
      seen := seen + {cur};
      var (nxt, kind) := out[cur];
      if kind != Handoff {
        assert forall b :: !HandoffStep(rows, cur, b);
        break;
      }
      assert HandoffStep(rows, cur, nxt);
      ReachesThenStep(rows, to, cur, nxt);
      if nxt == from {
        return true;
      }
      cur := nxt;
    }
    var closed := seen + {cur};
    assert forall a, b :: a in closed && HandoffStep(rows, a, b) ==> b in closed && b != from;
    forall p | IsHandoffPath(rows, p) && |p| >= 2 && p[0] == to && p[|p| - 1] == from
      ensures false
    {
      ClosedSetBlocks(rows, closed, from, p);
    }
    return false;
  }

  lemma {:induction false} RowsKeepOneOutgoing(edges: seq<Edge>, project: ProjectId)
    requires OneOutgoing(edges)
    ensures OneOutgoing(InProject(edges, project))
    decreases |edges|
  {
    if edges != [] {
      var rest := edges[1..];
      assert forall i, j :: 0 <= i < j < |rest| ==> rest[i].src == edges[i + 1].src && rest[j].src == edges[j + 1].src;
      RowsKeepOneOutgoing(rest, project);
      var rows := InProject(edges, project);
      var tail := InProject(rest, project);
      if edges[0].project == project {
        forall j | 0 <= j < |tail|
          ensures tail[j].src != edges[0].src
        {
          assert tail[j] in rest;
        }
        assert rows == [edges[0]] + tail;
      }
    }
  }

  // --- validation ---

  datatype EdgeRequest = EdgeRequest(from: AgentId, to: AgentId, kind: string, maxIterations: Option<int>)

  function KindOf(r: EdgeRequest): EdgeKind {
    if r.kind == "review_loop" then ReviewLoop(r.maxIterations.GetOr(0)) else Handoff
  }

  predicate HasOutgoing(edges: seq<Edge>, a: AgentId) {
    exists e | e in edges :: e.src == a
  }

  // The first rule a request breaks, in the order the rules are checked.
  ghost function Refusal(agents: map<AgentId, Agent>, edges: seq<Edge>, project: ProjectId, r: EdgeRequest): Option<EdgeError> {
    if r.kind != "handoff" && r.kind != "review_loop" then Some(BadType)
    else if r.kind == "review_loop" && !(r.maxIterations.Some? && 1 <= r.maxIterations.value <= 10) then Some(BadIterations)
    else if r.to == r.from then Some(SelfEdge)
    else if r.to !in agents || agents[r.to].project != project then Some(WrongProject)
    else if HasOutgoing(edges, r.from) then Some(OutputTaken)
    else if r.kind == "handoff" && Leads(InProject(edges, project), r.to, r.from) then Some(Cycle)
    else None
  }

  // The edge table after a request: one more row, or the refusal and no change.
  ghost function WithEdge(agents: map<AgentId, Agent>, edges: seq<Edge>, project: ProjectId, r: EdgeRequest, id: EdgeId): (seq<Edge>, Option<EdgeError>) {
    var refusal := Refusal(agents, edges, project, r);
    if refusal.Some? then (edges, refusal)
    else (edges + [Edge(id, project, r.from, r.to, KindOf(r))], None)
  }

  method ValidateAndBuildEdge(db: Session, project: ProjectId, r: EdgeRequest, id: EdgeId)
    returns (refusal: Option<EdgeError>)
    requires OneOutgoing(db.edges)
    modifies db`edges
    ensures (db.edges, refusal) == old(WithEdge(db.agents, db.edges, project, r, id))
  {
    if r.kind != "handoff" && r.kind != "review_loop" {
      return Some(BadType);
    }
    var kind := Handoff;
    if r.kind == "review_loop" {
      if r.maxIterations.None? || !(1 <= r.maxIterations.value <= 10) {
        return Some(BadIterations);
      }
      kind := ReviewLoop(r.maxIterations.value);
    }
    if r.to == r.from {
      return Some(SelfEdge);
    }
    if r.to !in db.agents || db.agents[r.to].project != project {
      return Some(WrongProject);
    }
    if HasOutgoing(db.edges, r.from) {
      return Some(OutputTaken);
    }
    if kind == Handoff {
      var cycle := CreatesHandoffCycle(db, project, r.from, r.to);
      if cycle {
        return Some(Cycle);
      }
    }
    db.edges := db.edges + [Edge(id, project, r.from, r.to, kind)];
    return None;
  }

  // A request that names an agent of the project is refused exactly when accepting it would break
  // the table: the validator is neither too strict nor too lax.
  lemma RefusedExactlyWhenInvalid(agents: map<AgentId, Agent>, edges: seq<Edge>, project: ProjectId, r: EdgeRequest, id: EdgeId)
    requires ValidEdges(agents, edges)
    requires r.from in agents && agents[r.from].project == project
    requires r.kind == "handoff" || r.kind == "review_loop"
    ensures Refusal(agents, edges, project, r).None?
       <==> ValidEdges(agents, edges + [Edge(id, project, r.from, r.to, KindOf(r))])
  {
    var e := Edge(id, project, r.from, r.to, KindOf(r));
    var bigger := edges + [e];
    assert bigger[|edges|] == e && e in bigger;
    if r.to in agents && agents[r.to].project == project {
      LeadsWithinProject(agents, edges, r.to, r.from);
      if r.to != r.from {
        if r.kind == "handoff" {
          AddHandoffAcyclicIff(edges, e);
        } else {
          AddReviewAcyclic(edges, e);
        }
      }
    } else {
      assert !EdgeRowOk(agents, e);
    }
    if HasOutgoing(edges, r.from) {
      var k :| 0 <= k < |edges| && edges[k].src == r.from;
      assert bigger[k].src == bigger[|edges|].src;
    }
  }

  // --- histories of the edge table ---

  datatype EdgeOp =
    | AddAgent(agent: AgentId, row: Agent)
    | Connect(request: EdgeRequest, id: EdgeId)
    | Disconnect(id: EdgeId)
    | RemoveAgent(agent: AgentId)

  datatype Graph = Graph(agents: map<AgentId, Agent>, edges: seq<Edge>)

  function WithoutEdge(edges: seq<Edge>, id: EdgeId): (rows: seq<Edge>)
    ensures forall e :: e in rows <==> e in edges && e.id != id
    ensures OneOutgoing(edges) ==> OneOutgoing(rows)
  {
    if edges == [] then []
    else
      var rest := WithoutEdge(edges[1..], id);
      assert edges == [edges[0]] + edges[1..];
      if edges[0].id == id then rest else [edges[0]] + rest
  }

  function WithoutAgent(edges: seq<Edge>, a: AgentId): (rows: seq<Edge>)
    ensures forall e :: e in rows <==> e in edges && e.src != a && e.dst != a
    ensures OneOutgoing(edges) ==> OneOutgoing(rows)
  {
    if edges == [] then []
    else
      var rest := WithoutAgent(edges[1..], a);
      assert edges == [edges[0]] + edges[1..];
      if edges[0].src == a || edges[0].dst == a then rest else [edges[0]] + rest
  }

  ghost function Edited(g: Graph, op: EdgeOp): Graph {
    match op
    case AddAgent(a, row) => if a in g.agents then g else g.(agents := g.agents[a := row])
    case Connect(r, id) =>
      if r.from !in g.agents then g
      else g.(edges := WithEdge(g.agents, g.edges, g.agents[r.from].project, r, id).0)
    case Disconnect(id) => g.(edges := WithoutEdge(g.edges, id))
    case RemoveAgent(a) => Graph(g.agents - {a}, WithoutAgent(g.edges, a))
  }

  ghost function EditedAll(g: Graph, ops: seq<EdgeOp>): Graph
    decreases |ops|
  {
    if ops == [] then g else EditedAll(Edited(g, ops[0]), ops[1..])
  }

  lemma EditKeepsValid(g: Graph, op: EdgeOp)
    requires ValidEdges(g.agents, g.edges)
    ensures ValidEdges(Edited(g, op).agents, Edited(g, op).edges)
  {
    match op {
      case AddAgent(a, row) =>
      case Connect(r, id) =>
        if r.from in g.agents {
          var project := g.agents[r.from].project;
          if Refusal(g.agents, g.edges, project, r).None? {
            RefusedExactlyWhenInvalid(g.agents, g.edges, project, r, id);
          }
        }
      case Disconnect(id) =>
        SubtableKeepsAcyclic(WithoutEdge(g.edges, id), g.edges);
      case RemoveAgent(a) =>
        SubtableKeepsAcyclic(WithoutAgent(g.edges, a), g.edges);
    }
  }

  /** Whatever is created and deleted, in any order: one outgoing edge per agent, no handoff cycle. */
  lemma {:induction false} EveryHistoryValid(g: Graph, ops: seq<EdgeOp>)
    requires ValidEdges(g.agents, g.edges)
    ensures ValidEdges(EditedAll(g, ops).agents, EditedAll(g, ops).edges)
    decreases |ops|
  {
    if ops != [] {
      EditKeepsValid(g, ops[0]);
      EveryHistoryValid(Edited(g, ops[0]), ops[1..]);
    }
  }
}
