/** Small generic containers shared by every module. */
module Common {
  datatype Option<+T> = None | Some(value: T) {
    function GetOr(default: T): T {
      match this
      case Some(v) => v
      case None => default
    }
  }

  datatype Result<+T, +E> = Success(value: T) | Failure(error: E)

  // Cardinality is monotone in the subset order.
  lemma {:induction false} SubsetCardinality<T>(small: set<T>, big: set<T>)
    requires small <= big
    ensures |small| <= |big|
    decreases small
  {
    if small == {} {
    } else {
      var x :| x in small;
      SubsetCardinality(small - {x}, big - {x});
    }
  }
}

/**
 The tables the orchestration kernel reads and writes (backend/app/models.py), as values and as
 the mutable database session. A task's id is its row number, an edge table is the list of its
 rows in query order, and the two credit tables form the books.
 */
module Schema {
  import opened Common

  type UserId = nat
  type ProjectId = nat
  type AgentId = nat
  type GoalId = nat
  type EdgeId = nat
  type TaskId = nat
  type StripeRef = string

  datatype Tier = Light | Medium | Strong
  datatype Engine = Crew | AgentSdk
  datatype Agent = Agent(project: ProjectId, tier: Tier, engine: Engine)

  datatype EdgeKind = Handoff | ReviewLoop(maxIterations: int)
  datatype Edge = Edge(id: EdgeId, project: ProjectId, src: AgentId, dst: AgentId, kind: EdgeKind)

  datatype Status = Queued | Working | Blocked | NeedsInput | Done | Failed

  // The loop_state column: absent, a review of some round, or a revision asked for by that round.
  datatype Loop = Plain | Review(round: int, edge: EdgeId) | Revision(round: int, edge: EdgeId)

  datatype Task = Task(
    user: UserId, project: ProjectId, agent: AgentId, goal: Option<GoalId>, engine: Engine,
    parent: Option<TaskId>, edge: Option<EdgeId>, loop: Loop, overrideTo: Option<AgentId>,
    status: Status, stopped: bool, instructions: string, input: Option<string>,
    continuations: seq<string>, result: Option<string>, awaiting: Option<string>,
    error: Option<string>, attempt: nat)

  datatype Notice = ChainBudget(task: TaskId) | LoopExhausted(task: TaskId)

  datatype Plan = Free | Starter | Pro | Studio
  datatype Account = Account(
    balance: int, plan: Plan, allowance: int, capOn: bool, signupGranted: bool, customer: Option<nat>)

  datatype Reason = SignupGrant | TaskCharge | RefundSystemFailure | Topup | MonthlyRefill
  datatype Entry = Entry(
    user: UserId, delta: int, reason: Reason, balanceAfter: int,
    task: Option<TaskId>, stripeRef: Option<StripeRef>)

  datatype Books = Books(accounts: map<UserId, Account>, ledger: seq<Entry>)

  datatype Config = Config(concurrencyCap: int, goalBudget: int, billing: bool)

  datatype Db = Db(
    config: Config, paused: set<ProjectId>, agents: map<AgentId, Agent>, edges: seq<Edge>,
    tasks: seq<Task>, notices: seq<Notice>, books: Books)

  /** The session every service function receives; rows change in place. */
  class Session {
    var config: Config
    var paused: set<ProjectId>
    var agents: map<AgentId, Agent>
    var edges: seq<Edge>
    var tasks: seq<Task>
    var notices: seq<Notice>
    var accounts: map<UserId, Account>
    var ledger: seq<Entry>

    constructor (d: Db)
      ensures View() == d
    {
      config, paused, agents, edges := d.config, d.paused, d.agents, d.edges;
      tasks, notices := d.tasks, d.notices;
      accounts, ledger := d.books.accounts, d.books.ledger;
    }

    function BooksView(): Books
      reads this
    {
      Books(accounts, ledger)
    }

    function View(): Db
      reads this
    {
      Db(config, paused, agents, edges, tasks, notices, BooksView())
    }

    // An exception that leaves the request undoes everything since the last commit.
    method Rollback(d: Db)
      modifies this
      ensures View() == d
    {
      config, paused, agents, edges := d.config, d.paused, d.agents, d.edges;
      tasks, notices := d.tasks, d.notices;
      accounts, ledger := d.books.accounts, d.books.ledger;
    }
  }
}
