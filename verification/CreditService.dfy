/**
 The credit ledger (backend/app/services/credit_service.py) and the Stripe webhook that feeds it
 (backend/app/services/stripe_service.py). Every change of a balance goes through one posting
 operation that appends a ledger line and updates the cached balance.
 */
module CreditService {
  import opened Common
  import opened Schema

  datatype PostError = Insufficient(needed: int, balance: int) | DuplicateRef

  const NEW_ACCOUNT := Account(0, Free, 0, true, false, None)
  const SIGNUP_CREDITS := 500

  function CreditCost(tier: Tier): int {
    match tier
    case Light => 10
    case Medium => 30
    case Strong => 300
  }

  // --- the books as values ---

  function WithAccount(b: Books, u: UserId): Books {
    if u in b.accounts then b else b.(accounts := b.accounts[u := NEW_ACCOUNT])
  }

  // A line that credited this reference.
  predicate Posted(ledger: seq<Entry>, ref: StripeRef) {
    exists e | e in ledger :: e.stripeRef == Some(ref) && e.delta > 0
  }

  // An empty reference is falsy, so only a non-empty one is looked up before crediting.
  predicate SkippedAsDuplicate(ledger: seq<Entry>, delta: int, ref: Option<StripeRef>) {
    delta > 0 && ref.Some? && ref.value != "" && Posted(ledger, ref.value)
  }

  function Appended(b: Books, u: UserId, delta: int, reason: Reason, task: Option<TaskId>, ref: Option<StripeRef>): Books
    requires u in b.accounts
  {
    var after := b.accounts[u].balance + delta;
    Books(b.accounts[u := b.accounts[u].(balance := after)],
          b.ledger + [Entry(u, delta, reason, after, task, ref)])
  }

  // What one posting does: the new books, and the new balance or the reason nothing was posted.
  // A failed guard keeps the account row it created; a second credit of the same (empty) reference
  // trips the unique index and undoes everything.
  function Posting(b: Books, u: UserId, delta: int, reason: Reason, task: Option<TaskId>, ref: Option<StripeRef>, guard: Option<int>): (Books, Result<int, PostError>)
  {
    var wallet := WithAccount(b, u);
    var balance := wallet.accounts[u].balance;
    if SkippedAsDuplicate(b.ledger, delta, ref) then (wallet, Success(balance))
    else if guard.Some? && balance < guard.value then (wallet, Failure(Insufficient(-delta, balance)))
    else if delta > 0 && ref.Some? && Posted(b.ledger, ref.value) then (b, Failure(DuplicateRef))
    else (Appended(wallet, u, delta, reason, task, ref), Success(balance + delta))
  }

  function SignupPosting(b: Books, u: UserId, credits: int): Books {
    var wallet := WithAccount(b, u);
    if wallet.accounts[u].signupGranted then wallet
    else
      var marked := wallet.(accounts := wallet.accounts[u := wallet.accounts[u].(signupGranted := true)]);
      Posting(marked, u, credits, SignupGrant, None, None, None).0
  }

  function ChargePosting(b: Books, u: UserId, task: TaskId, tier: Tier): (Books, Result<int, PostError>) {
    var wallet := WithAccount(b, u);
    var guard := if wallet.accounts[u].capOn then Some(CreditCost(tier)) else None;
    Posting(wallet, u, -CreditCost(tier), TaskCharge, Some(task), None, guard)
  }

  function RefundPosting(b: Books, u: UserId, task: TaskId, credits: int): Books {
    if u !in b.accounts then b
    else Posting(b, u, credits, RefundSystemFailure, Some(task), None, None).0
  }

  function RefillPosting(b: Books, u: UserId, plan: Plan, allowance: int, ref: Option<StripeRef>): (Books, Result<int, PostError>) {
    var wallet := WithAccount(b, u);
    var planned := wallet.(accounts := wallet.accounts[u := wallet.accounts[u].(plan := plan, allowance := allowance)]);
    var (after, res) := Posting(planned, u, allowance, MonthlyRefill, None, ref, None);
    if res.Failure? then (b, res) else (after, res)
  }

  // --- Stripe events ---

  // Metadata fields are optional; `payment` tells a one-off checkout from a subscription checkout.
  datatype StripeEvent =
    | CheckoutCompleted(payment: bool, user: Option<UserId>, clientRef: Option<UserId>, customer: Option<nat>, credits: Option<int>, ref: Option<StripeRef>)
    | InvoicePaid(user: Option<UserId>, plan: Option<Plan>, customer: Option<nat>, credits: Option<int>, ref: Option<StripeRef>)
    | SubscriptionDeleted(user: Option<UserId>)
    | OtherEvent

  function Remembered(b: Books, u: Option<UserId>, customer: Option<nat>): Books {
    if u.None? || customer.None? then b
    else
      var wallet := WithAccount(b, u.value);
      wallet.(accounts := wallet.accounts[u.value := wallet.accounts[u.value].(customer := customer)])
  }

  // The committed books after an event; an event that raises commits nothing.
  function AfterEvent(b: Books, ev: StripeEvent): Books {
    match ev
    case CheckoutCompleted(payment, user, clientRef, customer, credits, ref) =>
      var known := Remembered(b, if user.Some? then user else clientRef, customer);
      if !payment then known
      else if user.Some? && credits.Some? then
        var (after, res) := Posting(known, user.value, credits.value, Topup, None, ref, None);
        if res.Failure? then b else after
      else b
    case InvoicePaid(user, plan, customer, credits, ref) =>
      if user.Some? && plan.Some? && credits.Some? then
        var (after, res) := RefillPosting(Remembered(b, user, customer), user.value, plan.value, credits.value, ref);
        if res.Failure? then b else after
      else b
    case SubscriptionDeleted(user) =>
      if user.Some? then
        var wallet := WithAccount(b, user.value);
        wallet.(accounts := wallet.accounts[user.value := wallet.accounts[user.value].(plan := Free, allowance := 0)])
      else b
    case OtherEvent => b
  }

  // --- the service on the session ---

  method GetOrCreateAccount(db: Session, u: UserId)
    modifies db`accounts
    ensures db.BooksView() == WithAccount(old(db.BooksView()), u)
  {
    if u !in db.accounts {
      db.accounts := db.accounts[u := NEW_ACCOUNT];
    }
  }

  method AlreadyPosted(db: Session, ref: StripeRef) returns (posted: bool)
    ensures posted <==> Posted(db.ledger, ref)
  {
    for i := 0 to |db.ledger|
      invariant !Posted(db.ledger[..i], ref)
    {
      assert db.ledger[..i + 1] == db.ledger[..i] + [db.ledger[i]];
      if db.ledger[i].stripeRef == Some(ref) && db.ledger[i].delta > 0 {
        return true;
      }
    }
    assert db.ledger[..|db.ledger|] == db.ledger;
    return false;
  }

  method Post(db: Session, u: UserId, delta: int, reason: Reason, task: Option<TaskId>, ref: Option<StripeRef>, guard: Option<int>)
    returns (res: Result<int, PostError>)
    modifies db`accounts, db`ledger
    ensures (db.BooksView(), res) == Posting(old(db.BooksView()), u, delta, reason, task, ref, guard)
  {
    if delta > 0 && ref.Some? && ref.value != "" {
      var posted := AlreadyPosted(db, ref.value);
      if posted {
        GetOrCreateAccount(db, u);
        return Success(db.accounts[u].balance);
      }
    }
    var before := db.accounts;
    GetOrCreateAccount(db, u);
    if guard.Some? && db.accounts[u].balance < guard.value {
      return Failure(Insufficient(-delta, db.accounts[u].balance));
    }
    if delta > 0 && ref.Some? {
      var clash := AlreadyPosted(db, ref.value);
      if clash {
        db.accounts := before;
        return Failure(DuplicateRef);
      }
    }
    var after := db.accounts[u].balance + delta;
    db.accounts := db.accounts[u := db.accounts[u].(balance := after)];
    db.ledger := db.ledger + [Entry(u, delta, reason, after, task, ref)];
    return Success(after);
  }

  method GrantSignup(db: Session, u: UserId, credits: int)
    modifies db`accounts, db`ledger
    ensures db.BooksView() == SignupPosting(old(db.BooksView()), u, credits)
  {
    GetOrCreateAccount(db, u);
    if !db.accounts[u].signupGranted {
      db.accounts := db.accounts[u := db.accounts[u].(signupGranted := true)];
      var _ := Post(db, u, credits, SignupGrant, None, None, None);
    }
  }

  method ChargeTask(db: Session, u: UserId, task: TaskId, tier: Tier) returns (res: Result<int, PostError>)
    modifies db`accounts, db`ledger
    ensures (db.BooksView(), res) == ChargePosting(old(db.BooksView()), u, task, tier)
  {
    var cost := CreditCost(tier);
    GetOrCreateAccount(db, u);
    var guard := if db.accounts[u].capOn then Some(cost) else None;
    res := Post(db, u, -cost, TaskCharge, Some(task), None, guard);
  }

  method RefundTask(db: Session, u: UserId, task: TaskId, credits: int)
    modifies db`accounts, db`ledger
    ensures db.BooksView() == RefundPosting(old(db.BooksView()), u, task, credits)
  {
    if u in db.accounts {
      var _ := Post(db, u, credits, RefundSystemFailure, Some(task), None, None);
    }
  }

  method ApplySubscriptionRefill(db: Session, u: UserId, plan: Plan, allowance: int, ref: Option<StripeRef>)
    returns (res: Result<int, PostError>)
    modifies db`accounts, db`ledger
    ensures (db.BooksView(), res) == RefillPosting(old(db.BooksView()), u, plan, allowance, ref)
  {
    var before := db.BooksView();
    GetOrCreateAccount(db, u);
    db.accounts := db.accounts[u := db.accounts[u].(plan := plan, allowance := allowance)];
    res := Post(db, u, allowance, MonthlyRefill, None, ref, None);
    if res.Failure? {
      db.accounts, db.ledger := before.accounts, before.ledger;
    }
  }

  method RememberCustomer(db: Session, u: Option<UserId>, customer: Option<nat>)
    modifies db`accounts
    ensures db.BooksView() == Remembered(old(db.BooksView()), u, customer)
  {
    if u.Some? && customer.Some? {
      GetOrCreateAccount(db, u.value);
      if db.accounts[u.value].customer != customer {
        db.accounts := db.accounts[u.value := db.accounts[u.value].(customer := customer)];
      }
      assert db.accounts[u.value := db.accounts[u.value].(customer := customer)] == db.accounts;
    }
  }

  method HandleEvent(db: Session, ev: StripeEvent)
    modifies db`accounts, db`ledger
    ensures db.BooksView() == AfterEvent(old(db.BooksView()), ev)
  {
    var before := db.BooksView();
    match ev {
      case CheckoutCompleted(payment, user, clientRef, customer, credits, ref) =>
        RememberCustomer(db, if user.Some? then user else clientRef, customer);
        if payment {
          if user.Some? && credits.Some? {
            var res := Post(db, user.value, credits.value, Topup, None, ref, None);
            if res.Failure? {
              db.accounts, db.ledger := before.accounts, before.ledger;
            }
          } else {
            db.accounts, db.ledger := before.accounts, before.ledger;
          }
        }
      case InvoicePaid(user, plan, customer, credits, ref) =>
        if user.Some? && plan.Some? && credits.Some? {
          RememberCustomer(db, user, customer);
          var res := ApplySubscriptionRefill(db, user.value, plan.value, credits.value, ref);
          if res.Failure? {
            db.accounts, db.ledger := before.accounts, before.ledger;
          }
        }
      case SubscriptionDeleted(user) =>
        if user.Some? {
          GetOrCreateAccount(db, user.value);
          db.accounts := db.accounts[user.value := db.accounts[user.value].(plan := Free, allowance := 0)];
        }
      case OtherEvent =>
    }
  }

  // --- what the ledger promises ---

  function SumOf(ledger: seq<Entry>, u: UserId): int {
    if ledger == [] then 0
    else
      var last := ledger[|ledger| - 1];
      SumOf(ledger[..|ledger| - 1], u) + (if last.user == u then last.delta else 0)
  }

  function GrantsTo(ledger: seq<Entry>, u: UserId): nat {
    if ledger == [] then 0
    else
      var last := ledger[|ledger| - 1];
      GrantsTo(ledger[..|ledger| - 1], u) + (if last.user == u && last.reason.SignupGrant? then 1 else 0)
  }

  lemma SumOfPush(ledger: seq<Entry>, e: Entry, u: UserId)
    ensures SumOf(ledger + [e], u) == SumOf(ledger, u) + (if e.user == u then e.delta else 0)
    ensures GrantsTo(ledger + [e], u) == GrantsTo(ledger, u) + (if e.user == u && e.reason.SignupGrant? then 1 else 0)
  {
    assert (ledger + [e])[..|ledger|] == ledger;
  }

  ghost predicate CachedBalances(b: Books) {
    && (forall u :: u in b.accounts ==> b.accounts[u].balance == SumOf(b.ledger, u))
    && (forall u: UserId :: u !in b.accounts ==> SumOf(b.ledger, u) == 0)
    && (forall e :: e in b.ledger ==> e.user in b.accounts)
  }

  // Each line records its user's running total up to and including itself.
  ghost predicate PrefixSums(ledger: seq<Entry>) {
    forall i :: 0 <= i < |ledger| ==> ledger[i].balanceAfter == SumOf(ledger[..i + 1], ledger[i].user)
  }

  ghost predicate GrantedOnce(b: Books) {
    forall u: UserId :: GrantsTo(b.ledger, u) == (if u in b.accounts && b.accounts[u].signupGranted then 1 else 0)
  }

  ghost predicate NoDebtUnderCap(b: Books) {
    forall u :: u in b.accounts && b.accounts[u].capOn ==> b.accounts[u].balance >= 0
  }

  // No credited reference appears twice: the partial unique index.
  ghost predicate RefsUnique(ledger: seq<Entry>) {
    forall i, j :: 0 <= i < j < |ledger| && ledger[i].delta > 0 && ledger[j].delta > 0 && ledger[i].stripeRef.Some?
      ==> ledger[i].stripeRef != ledger[j].stripeRef
  }

  ghost predicate SoundBooks(b: Books) {
    && CachedBalances(b)
    && PrefixSums(b.ledger)
    && GrantedOnce(b)
    && RefsUnique(b.ledger)
  }

  lemma AppendedBalances(b: Books, u: UserId, delta: int, reason: Reason, task: Option<TaskId>, ref: Option<StripeRef>)
    requires u in b.accounts && CachedBalances(b)
    ensures CachedBalances(Appended(b, u, delta, reason, task, ref))
  {
    var c := Appended(b, u, delta, reason, task, ref);
    forall v: UserId
      ensures SumOf(c.ledger, v) == SumOf(b.ledger, v) + (if u == v then delta else 0)
    {
      SumOfPush(b.ledger, c.ledger[|b.ledger|], v);
    }
  }

  lemma PushedPrefixSums(ledger: seq<Entry>, e: Entry)
    requires PrefixSums(ledger) && e.balanceAfter == SumOf(ledger, e.user) + e.delta
    ensures PrefixSums(ledger + [e])
  {
    var c := ledger + [e];
    forall i | 0 <= i < |c|
      ensures c[i].balanceAfter == SumOf(c[..i + 1], c[i].user)
    {
      if i < |ledger| {
        assert c[..i + 1] == ledger[..i + 1];
      } else {
        assert c[..i + 1] == c;
        SumOfPush(ledger, e, e.user);
      }
    }
  }

  lemma PushedRefsUnique(ledger: seq<Entry>, e: Entry)
    requires RefsUnique(ledger)
    requires e.delta > 0 && e.stripeRef.Some? ==> !Posted(ledger, e.stripeRef.value)
    ensures RefsUnique(ledger + [e])
  {
    var c := ledger + [e];
    forall i, j | 0 <= i < j < |c| && c[i].delta > 0 && c[j].delta > 0 && c[i].stripeRef.Some?
      ensures c[i].stripeRef != c[j].stripeRef
    {
      if j == |ledger| {
        assert c[i] in ledger;
      }
    }
  }

  lemma AppendedSound(b: Books, u: UserId, delta: int, reason: Reason, task: Option<TaskId>, ref: Option<StripeRef>)
    requires u in b.accounts
    requires CachedBalances(b) && PrefixSums(b.ledger) && RefsUnique(b.ledger)
    requires delta > 0 && ref.Some? ==> !Posted(b.ledger, ref.value)
    ensures CachedBalances(Appended(b, u, delta, reason, task, ref))
    ensures PrefixSums(Appended(b, u, delta, reason, task, ref).ledger)
    ensures RefsUnique(Appended(b, u, delta, reason, task, ref).ledger)
  {
    var e := Entry(u, delta, reason, b.accounts[u].balance + delta, task, ref);
    assert Appended(b, u, delta, reason, task, ref).ledger == b.ledger + [e];
    assert CachedBalances(Appended(b, u, delta, reason, task, ref)) by {
      AppendedBalances(b, u, delta, reason, task, ref);
    }
    assert PrefixSums(b.ledger + [e]) by {
      PushedPrefixSums(b.ledger, e);
    }
    assert RefsUnique(b.ledger + [e]) by {
      PushedRefsUnique(b.ledger, e);
    }
  }

  lemma WalletSound(b: Books, u: UserId)
    requires SoundBooks(b)
    ensures SoundBooks(WithAccount(b, u))
  {
  }

  lemma AppendedGrants(b: Books, u: UserId, delta: int, reason: Reason, task: Option<TaskId>, ref: Option<StripeRef>)
    requires u in b.accounts
    requires forall v: UserId :: GrantsTo(b.ledger, v) + (if reason.SignupGrant? && u == v then 1 else 0)
                              == (if v in b.accounts && b.accounts[v].signupGranted then 1 else 0)
    ensures GrantedOnce(Appended(b, u, delta, reason, task, ref))
  {
    var c := Appended(b, u, delta, reason, task, ref);
    forall v: UserId
      ensures GrantsTo(c.ledger, v) == (if v in c.accounts && c.accounts[v].signupGranted then 1 else 0)
    {
      SumOfPush(b.ledger, c.ledger[|b.ledger|], v);
    }
  }

  lemma PostedLineSound(b: Books, u: UserId, delta: int, reason: Reason, task: Option<TaskId>, ref: Option<StripeRef>)
    requires SoundBooks(b) && u in b.accounts && !reason.SignupGrant?
    requires delta > 0 && ref.Some? ==> !Posted(b.ledger, ref.value)
    ensures SoundBooks(Appended(b, u, delta, reason, task, ref))
  {
    AppendedSound(b, u, delta, reason, task, ref);
    AppendedGrants(b, u, delta, reason, task, ref);
  }

  lemma PostingSound(b: Books, u: UserId, delta: int, reason: Reason, task: Option<TaskId>, ref: Option<StripeRef>, guard: Option<int>)
    requires SoundBooks(b) && !reason.SignupGrant?
    ensures SoundBooks(Posting(b, u, delta, reason, task, ref, guard).0)
  {
    var wallet := WithAccount(b, u);
    var c := Posting(b, u, delta, reason, task, ref, guard).0;
    WalletSound(b, u);
    if c != b && c != wallet {
      PostedLineSound(wallet, u, delta, reason, task, ref);
      assert c == Appended(wallet, u, delta, reason, task, ref);
    }
  }

  lemma SignupGrantSound(b: Books, u: UserId, credits: int)
    requires SoundBooks(b) && u in b.accounts && !b.accounts[u].signupGranted
    ensures SoundBooks(Appended(b.(accounts := b.accounts[u := b.accounts[u].(signupGranted := true)]), u, credits, SignupGrant, None, None))
  {
    var marked := b.(accounts := b.accounts[u := b.accounts[u].(signupGranted := true)]);
    assert CachedBalances(marked);
    AppendedSound(marked, u, credits, SignupGrant, None, None);
    AppendedGrants(marked, u, credits, SignupGrant, None, None);
  }

  // A second grant changes nothing, the first adds exactly one grant line.
  lemma SignupSound(b: Books, u: UserId, credits: int)
    requires SoundBooks(b)
    ensures SoundBooks(SignupPosting(b, u, credits))
    ensures GrantsTo(SignupPosting(b, u, credits).ledger, u) == 1
    ensures GrantsTo(b.ledger, u) == 1 ==> SignupPosting(b, u, credits) == b
  {
    var wallet := WithAccount(b, u);
    WalletSound(b, u);
    if !wallet.accounts[u].signupGranted {
      SignupGrantSound(wallet, u, credits);
    }
  }

  // --- runs of the credit service ---

  datatype CreditOp =
    | Signup(user: UserId, credits: int)
    | Charge(user: UserId, task: TaskId, tier: Tier)
    | Refund(user: UserId, task: TaskId, credits: int)
    | Webhook(event: StripeEvent)

  function Applied(b: Books, op: CreditOp): Books {
    match op
    case Signup(u, credits) => SignupPosting(b, u, credits)
    case Charge(u, task, tier) => ChargePosting(b, u, task, tier).0
    case Refund(u, task, credits) => RefundPosting(b, u, task, credits)
    case Webhook(ev) => AfterEvent(b, ev)
  }

  function AppliedAll(b: Books, ops: seq<CreditOp>): Books {
    if ops == [] then b else Applied(AppliedAll(b, ops[..|ops| - 1]), ops[|ops| - 1])
  }

  const EMPTY_BOOKS := Books(map[], [])

  lemma RowEditSound(b: Books, u: UserId, row: Account)
    requires SoundBooks(b) && u in b.accounts
    requires row.balance == b.accounts[u].balance && row.signupGranted == b.accounts[u].signupGranted
    ensures SoundBooks(b.(accounts := b.accounts[u := row]))
  {
  }

  lemma AppliedSound(b: Books, op: CreditOp)
    requires SoundBooks(b)
    ensures SoundBooks(Applied(b, op))
  {
    match op {
      case Signup(u, credits) => SignupSound(b, u, credits);
      case Charge(u, task, tier) => ChargeSound(b, u, task, tier);
      case Refund(u, task, credits) => RefundSound(b, u, task, credits);
      case Webhook(ev) => EventSound(b, ev);
    }
  }

  lemma RefundSound(b: Books, u: UserId, task: TaskId, credits: int)
    requires SoundBooks(b)
    ensures SoundBooks(RefundPosting(b, u, task, credits))
  {
    PostingSound(b, u, credits, RefundSystemFailure, Some(task), None, None);
  }

  lemma ChargeSound(b: Books, u: UserId, task: TaskId, tier: Tier)
    requires SoundBooks(b)
    ensures SoundBooks(ChargePosting(b, u, task, tier).0)
  {
    var wallet := WithAccount(b, u);
    WalletSound(b, u);
    var guard := if wallet.accounts[u].capOn then Some(CreditCost(tier)) else None;
    PostingSound(wallet, u, -CreditCost(tier), TaskCharge, Some(task), None, guard);
  }

  // Plan, allowance and customer of an account do not matter.
  lemma EditedWalletSound(b: Books, u: UserId, row: Account)
    requires SoundBooks(b)
    requires var old_ := WithAccount(b, u).accounts[u]; row.balance == old_.balance && row.signupGranted == old_.signupGranted
    ensures SoundBooks(WithAccount(b, u).(accounts := WithAccount(b, u).accounts[u := row]))
  {
    WalletSound(b, u);
    RowEditSound(WithAccount(b, u), u, row);
  }

  lemma RememberedSound(b: Books, u: Option<UserId>, customer: Option<nat>)
    requires SoundBooks(b)
    ensures SoundBooks(Remembered(b, u, customer))
  {
    if u.Some? && customer.Some? {
      EditedWalletSound(b, u.value, WithAccount(b, u.value).accounts[u.value].(customer := customer));
    }
  }

  lemma RefillSound(b: Books, u: UserId, plan: Plan, allowance: int, ref: Option<StripeRef>)
    requires SoundBooks(b)
    ensures SoundBooks(RefillPosting(b, u, plan, allowance, ref).0)
  {
    var wallet := WithAccount(b, u);
    var row := wallet.accounts[u].(plan := plan, allowance := allowance);
    EditedWalletSound(b, u, row);
    PostingSound(wallet.(accounts := wallet.accounts[u := row]), u, allowance, MonthlyRefill, None, ref, None);
  }

  lemma EventSound(b: Books, ev: StripeEvent)
    requires SoundBooks(b)
    ensures SoundBooks(AfterEvent(b, ev))
  {
    match ev {
      case CheckoutCompleted(payment, user, clientRef, customer, credits, ref) =>
        var known := Remembered(b, if user.Some? then user else clientRef, customer);
        RememberedSound(b, if user.Some? then user else clientRef, customer);
        if payment && user.Some? && credits.Some? {
          PostingSound(known, user.value, credits.value, Topup, None, ref, None);
        }
      case InvoicePaid(user, plan, customer, credits, ref) =>
        if user.Some? && plan.Some? && credits.Some? {
          RememberedSound(b, user, customer);
          RefillSound(Remembered(b, user, customer), user.value, plan.value, credits.value, ref);
        }
      case SubscriptionDeleted(user) =>
        if user.Some? {
          EditedWalletSound(b, user.value, WithAccount(b, user.value).accounts[user.value].(plan := Free, allowance := 0));
        }
      case OtherEvent =>
    }
  }

  /** After any sequence of operations the cached balances, running totals, single grants and unique references all hold. */
  lemma {:induction false} BooksAlwaysSound(ops: seq<CreditOp>)
    ensures SoundBooks(AppliedAll(EMPTY_BOOKS, ops))
    decreases |ops|
  {
    if ops != [] {
      BooksAlwaysSound(ops[..|ops| - 1]);
      AppliedSound(AppliedAll(EMPTY_BOOKS, ops[..|ops| - 1]), ops[|ops| - 1]);
    }
  }

  // Webhooks, grants and refunds that never carry a negative amount.
  predicate NonNegative(op: CreditOp) {
    match op
    case Signup(_, credits) => credits >= 0
    case Charge(_, _, _) => true
    case Refund(_, _, credits) => credits >= 0
    case Webhook(ev) => (ev.CheckoutCompleted? || ev.InvoicePaid?) && ev.credits.Some? ==> ev.credits.value >= 0
  }

  lemma PostingNoDebt(b: Books, u: UserId, delta: int, reason: Reason, task: Option<TaskId>, ref: Option<StripeRef>, guard: Option<int>)
    requires NoDebtUnderCap(b)
    requires delta >= 0 || (u in b.accounts && (b.accounts[u].capOn ==> guard == Some(-delta)))
    ensures NoDebtUnderCap(Posting(b, u, delta, reason, task, ref, guard).0)
  {
  }

  lemma EventNoDebt(b: Books, ev: StripeEvent)
    requires NoDebtUnderCap(b) && NonNegative(Webhook(ev))
    ensures NoDebtUnderCap(AfterEvent(b, ev))
  {
    match ev {
      case CheckoutCompleted(payment, user, clientRef, customer, credits, ref) =>
        if payment && user.Some? && credits.Some? {
          PostingNoDebt(Remembered(b, if user.Some? then user else clientRef, customer), user.value, credits.value, Topup, None, ref, None);
        }
      case InvoicePaid(user, plan, customer, credits, ref) =>
        if user.Some? && plan.Some? && credits.Some? {
          RefillNoDebt(Remembered(b, user, customer), user.value, plan.value, credits.value, ref);
        }
      case _ =>
    }
  }

  lemma RefillNoDebt(b: Books, u: UserId, plan: Plan, allowance: int, ref: Option<StripeRef>)
    requires NoDebtUnderCap(b) && allowance >= 0
    ensures NoDebtUnderCap(RefillPosting(b, u, plan, allowance, ref).0)
  {
    var wallet := WithAccount(b, u);
    var row := wallet.accounts[u].(plan := plan, allowance := allowance);
    PostingNoDebt(wallet.(accounts := wallet.accounts[u := row]), u, allowance, MonthlyRefill, None, ref, None);
  }

  lemma ChargeNoDebt(b: Books, u: UserId, task: TaskId, tier: Tier)
    requires NoDebtUnderCap(b)
    ensures NoDebtUnderCap(ChargePosting(b, u, task, tier).0)
  {
    var wallet := WithAccount(b, u);
    PostingNoDebt(wallet, u, -CreditCost(tier), TaskCharge, Some(task), None, if wallet.accounts[u].capOn then Some(CreditCost(tier)) else None);
  }

  lemma AppliedNoDebt(b: Books, op: CreditOp)
    requires NoDebtUnderCap(b) && NonNegative(op)
    ensures NoDebtUnderCap(Applied(b, op))
  {
    match op {
      case Signup(u, credits) =>
      case Charge(u, task, tier) => ChargeNoDebt(b, u, task, tier);
      case Refund(u, task, credits) => PostingNoDebt(b, u, credits, RefundSystemFailure, Some(task), None, None);
      case Webhook(ev) => EventNoDebt(b, ev);
    }
  }

  /** With the cap left on, as every account starts, no balance is ever negative. */
  lemma {:induction false} NeverInDebtUnderCap(ops: seq<CreditOp>)
    requires forall op :: op in ops ==> NonNegative(op)
    ensures NoDebtUnderCap(AppliedAll(EMPTY_BOOKS, ops))
    decreases |ops|
  {
    if ops != [] {
      var front := ops[..|ops| - 1];
      assert ops == front + [ops[|ops| - 1]];
      NeverInDebtUnderCap(front);
      AppliedNoDebt(AppliedAll(EMPTY_BOOKS, front), ops[|ops| - 1]);
    }
  }

  // --- at-least-once webhooks ---

  function StripeTotal(ledger: seq<Entry>, u: UserId): int {
    if ledger == [] then 0
    else
      var last := ledger[|ledger| - 1];
      StripeTotal(ledger[..|ledger| - 1], u) + (if last.user == u && last.stripeRef.Some? then last.delta else 0)
  }

  lemma StripeTotalPush(ledger: seq<Entry>, e: Entry, u: UserId)
    ensures StripeTotal(ledger + [e], u) == StripeTotal(ledger, u) + (if e.user == u && e.stripeRef.Some? then e.delta else 0)
  {
    assert (ledger + [e])[..|ledger|] == ledger;
  }

  // What an event would credit: the user, the amount and the reference it carries.
  function CreditOf(ev: StripeEvent): Option<(UserId, int, Option<StripeRef>)> {
    match ev
    case CheckoutCompleted(payment, user, _, _, credits, ref) =>
      if payment && user.Some? && credits.Some? then Some((user.value, credits.value, ref)) else None
    case InvoicePaid(user, plan, _, credits, ref) =>
      if user.Some? && plan.Some? && credits.Some? then Some((user.value, credits.value, ref)) else None
    case SubscriptionDeleted(_) => None
    case OtherEvent => None
  }

  // A one-off payment is a top-up, an invoice a refill.
  function ReasonOf(ev: StripeEvent): Reason {
    if ev.CheckoutCompleted? then Topup else MonthlyRefill
  }

  // The ledger after crediting: the same when the reference was credited before, otherwise one more line.
  ghost predicate Credits(before: seq<Entry>, after: seq<Entry>, u: UserId, amount: int, ref: Option<StripeRef>, reason: Reason) {
    if amount > 0 && ref.Some? && Posted(before, ref.value) then after == before
    else
      && |after| == |before| + 1 && after[..|before|] == before
      && after[|before|].user == u && after[|before|].delta == amount && after[|before|].stripeRef == ref
      && after[|before|].reason == reason && after[|before|].task.None?
  }

  lemma PostingCredits(b: Books, u: UserId, amount: int, reason: Reason, ref: Option<StripeRef>)
    ensures Credits(b.ledger, Posting(b, u, amount, reason, None, ref, None).0.ledger, u, amount, ref, reason)
  {
  }

  // The ledger part of an event, whatever it also does to the account rows.
  lemma EventLedger(b: Books, ev: StripeEvent)
    ensures CreditOf(ev).None? ==> AfterEvent(b, ev).ledger == b.ledger
    ensures CreditOf(ev).Some? ==>
              var (u, amount, ref) := CreditOf(ev).value; Credits(b.ledger, AfterEvent(b, ev).ledger, u, amount, ref, ReasonOf(ev))
  {
    match ev {
      case CheckoutCompleted(payment, user, clientRef, customer, credits, ref) =>
        if CreditOf(ev).Some? {
          PostingCredits(Remembered(b, if user.Some? then user else clientRef, customer), user.value, credits.value, Topup, ref);
        }
      case InvoicePaid(user, plan, customer, credits, ref) =>
        if CreditOf(ev).Some? {
          RefillLedger(Remembered(b, user, customer), user.value, plan.value, credits.value, ref);
        }
      case _ =>
    }
  }

  lemma RefillLedger(b: Books, u: UserId, plan: Plan, allowance: int, ref: Option<StripeRef>)
    ensures var (c, res) := RefillPosting(b, u, plan, allowance, ref); Credits(b.ledger, c.ledger, u, allowance, ref, MonthlyRefill)
  {
    var wallet := WithAccount(b, u);
    var row := wallet.accounts[u].(plan := plan, allowance := allowance);
    PostingCredits(wallet.(accounts := wallet.accounts[u := row]), u, allowance, MonthlyRefill, ref);
  }

  /** Delivering a credit event again leaves the ledger as it was exactly when its amount is positive and it carries a reference. */
  lemma RedeliveryIdempotentIff(b: Books, ev: StripeEvent)
    requires CreditOf(ev).Some?
    ensures AfterEvent(AfterEvent(b, ev), ev).ledger == AfterEvent(b, ev).ledger
       <==> CreditOf(ev).value.1 > 0 && CreditOf(ev).value.2.Some?
  {
    EventLedger(b, ev);
    var once := AfterEvent(b, ev);
    EventLedger(once, ev);
    var (u, amount, ref) := CreditOf(ev).value;
    if amount > 0 && ref.Some? && !Posted(b.ledger, ref.value) {
      assert once.ledger[|b.ledger|] in once.ledger;
    }
  }

  // Each reference names one user and one positive amount.
  ghost predicate RefDetermines(ev: StripeEvent, who: StripeRef -> UserId, amount: StripeRef -> int) {
    CreditOf(ev).Some? ==>
      var (u, credits, ref) := CreditOf(ev).value;
      ref.Some? && u == who(ref.value) && credits == amount(ref.value) && credits > 0
  }

  // The distinct references delivered to a user so far.
  function Delivered(ops: seq<CreditOp>, u: UserId): set<StripeRef> {
    if ops == [] then {}
    else
      var op := ops[|ops| - 1];
      Delivered(ops[..|ops| - 1], u)
      + (if op.Webhook? && CreditOf(op.event).Some? && CreditOf(op.event).value.0 == u && CreditOf(op.event).value.2.Some?
         then {CreditOf(op.event).value.2.value} else {})
  }

  ghost function SumOver(refs: set<StripeRef>, amount: StripeRef -> int): int
    decreases refs
  {
    if refs == {} then 0
    else var r :| r in refs; amount(r) + SumOver(refs - {r}, amount)
  }

  lemma {:induction false} SumOverInsert(refs: set<StripeRef>, amount: StripeRef -> int, x: StripeRef)
    requires x !in refs
    ensures SumOver(refs + {x}, amount) == SumOver(refs, amount) + amount(x)
    decreases refs
  {
    var all := refs + {x};
    assert all != {};
    var r :| r in all && SumOver(all, amount) == amount(r) + SumOver(all - {r}, amount);
    if r == x {
      assert all - {x} == refs;
    } else {
      var rest := refs - {r};
      assert all - {r} == rest + {x};
      SumOverInsert(rest, amount, x);
      SumOverInsert(rest, amount, r);
      assert rest + {r} == refs;
    }
  }

  lemma OtherOpsLedger(b: Books, op: CreditOp, u: UserId)
    requires !op.Webhook?
    ensures StripeTotal(Applied(b, op).ledger, u) == StripeTotal(b.ledger, u)
    ensures forall ref :: Posted(Applied(b, op).ledger, ref) <==> Posted(b.ledger, ref)
  {
    var after := Applied(b, op).ledger;
    if after != b.ledger {
      assert after[..|b.ledger|] == b.ledger && |after| == |b.ledger| + 1;
      assert after == b.ledger + [after[|b.ledger|]];
      StripeTotalPush(b.ledger, after[|b.ledger|], u);
    }
  }

  // One credit event moves a user's total by what the reference set gains.
  lemma CreditTotalStep(b: Books, ev: StripeEvent, who: StripeRef -> UserId, amount: StripeRef -> int, u: UserId, refs: set<StripeRef>)
    requires CreditOf(ev).Some? && RefDetermines(ev, who, amount)
    requires StripeTotal(b.ledger, u) == SumOver(refs, amount)
    requires u == CreditOf(ev).value.0 ==> (Posted(b.ledger, CreditOf(ev).value.2.value) <==> CreditOf(ev).value.2.value in refs)
    ensures StripeTotal(AfterEvent(b, ev).ledger, u)
         == SumOver(refs + (if u == CreditOf(ev).value.0 then {CreditOf(ev).value.2.value} else {}), amount)
  {
    EventLedger(b, ev);
    var (v, credits, r) := CreditOf(ev).value;
    var after := AfterEvent(b, ev).ledger;
    if Posted(b.ledger, r.value) {
      assert u == v ==> refs + {r.value} == refs;
      assert u != v ==> refs + {} == refs;
    } else {
      var e := after[|b.ledger|];
      assert after == b.ledger + [e];
      StripeTotalPush(b.ledger, e, u);
      if u == v {
        SumOverInsert(refs, amount, r.value);
      } else {
        assert refs + {} == refs;
      }
    }
  }

  lemma PostedStep(b: Books, ev: StripeEvent, who: StripeRef -> UserId, amount: StripeRef -> int)
    requires CreditOf(ev).Some? && RefDetermines(ev, who, amount)
    ensures forall r :: Posted(AfterEvent(b, ev).ledger, r) <==> Posted(b.ledger, r) || r == CreditOf(ev).value.2.value
  {
    EventLedger(b, ev);
    var after := AfterEvent(b, ev).ledger;
    if !Posted(b.ledger, CreditOf(ev).value.2.value) {
      assert after == b.ledger + [after[|b.ledger|]];
      PostedPush(b.ledger, after[|b.ledger|], CreditOf(ev).value.2.value);
    }
  }

  lemma PostedPush(ledger: seq<Entry>, e: Entry, ref: StripeRef)
    requires e.stripeRef == Some(ref) && e.delta > 0
    ensures forall r :: Posted(ledger + [e], r) <==> Posted(ledger, r) || r == ref
  {
    forall r
      ensures Posted(ledger + [e], r) <==> Posted(ledger, r) || r == ref
    {
      assert (ledger + [e])[|ledger|] == e;
      if Posted(ledger, r) {
        var k :| 0 <= k < |ledger| && ledger[k].stripeRef == Some(r) && ledger[k].delta > 0;
        assert (ledger + [e])[k] == ledger[k];
      }
    }
  }

  // A reference is posted exactly when it was delivered, and only to the user it names.
  lemma {:induction false} PostedExactlyDelivered(ops: seq<CreditOp>, who: StripeRef -> UserId, amount: StripeRef -> int, u: UserId)
    requires forall op :: op in ops && op.Webhook? ==> RefDetermines(op.event, who, amount)
    ensures forall r :: r in Delivered(ops, u) <==> Posted(AppliedAll(EMPTY_BOOKS, ops).ledger, r) && who(r) == u
    decreases |ops|
  {
    if ops != [] {
      var front := ops[..|ops| - 1];
      var op := ops[|ops| - 1];
      assert ops == front + [op];
      PostedExactlyDelivered(front, who, amount, u);
      var b := AppliedAll(EMPTY_BOOKS, front);
      if !op.Webhook? {
        OtherOpsLedger(b, op, u);
      } else {
        EventLedger(b, op.event);
        if CreditOf(op.event).Some? {
          PostedStep(b, op.event, who, amount);
        }
      }
    }
  }

  /**
   However often and in whatever order Stripe delivers its credit events, and whatever grants,
   charges and refunds happen in between, a user's Stripe credits are the sum over the distinct
   references delivered for that user.
   */
  lemma {:induction false} StripeCreditsExact(ops: seq<CreditOp>, who: StripeRef -> UserId, amount: StripeRef -> int, u: UserId)
    requires forall op :: op in ops && op.Webhook? ==> RefDetermines(op.event, who, amount)
    ensures StripeTotal(AppliedAll(EMPTY_BOOKS, ops).ledger, u) == SumOver(Delivered(ops, u), amount)
    decreases |ops|
  {
    if ops != [] {
      var front := ops[..|ops| - 1];
      var op := ops[|ops| - 1];
      assert ops == front + [op];
      StripeCreditsExact(front, who, amount, u);
      PostedExactlyDelivered(front, who, amount, u);
      var b := AppliedAll(EMPTY_BOOKS, front);
      if !op.Webhook? {
        OtherOpsLedger(b, op, u);
        assert Delivered(ops, u) == Delivered(front, u);
      } else if CreditOf(op.event).None? {
        EventLedger(b, op.event);
        assert Delivered(ops, u) == Delivered(front, u);
      } else {
        CreditTotalStep(b, op.event, who, amount, u, Delivered(front, u));
      }
    }
  }

  // Two histories that delivered the same references to a user credited that user the same.
  lemma OrderAndCopiesDoNotMatter(ops: seq<CreditOp>, ops': seq<CreditOp>, who: StripeRef -> UserId, amount: StripeRef -> int, u: UserId)
    requires forall op :: op in ops && op.Webhook? ==> RefDetermines(op.event, who, amount)
    requires forall op :: op in ops' && op.Webhook? ==> RefDetermines(op.event, who, amount)
    requires Delivered(ops, u) == Delivered(ops', u)
    ensures StripeTotal(AppliedAll(EMPTY_BOOKS, ops).ledger, u) == StripeTotal(AppliedAll(EMPTY_BOOKS, ops').ledger, u)
  {
    StripeCreditsExact(ops, who, amount, u);
    StripeCreditsExact(ops', who, amount, u);
  }

  // --- charges, exactly ---

  function BalanceIn(b: Books, u: UserId): int {
    if u in b.accounts then b.accounts[u].balance else 0
  }

  predicate CappedIn(b: Books, u: UserId) {
    u in b.accounts ==> b.accounts[u].capOn
  }

  /** A charge is refused exactly when it would take a capped account below zero; otherwise it takes its price, once, from that account only. */
  lemma ChargeExactly(b: Books, u: UserId, task: TaskId, tier: Tier)
    ensures var (c, res) := ChargePosting(b, u, task, tier); var price := CreditCost(tier);
      && (res.Success? <==> (CappedIn(b, u) ==> BalanceIn(b, u) - price >= 0))
      && (forall v :: BalanceIn(c, v) == BalanceIn(b, v) - (if v == u && res.Success? then price else 0))
      && |c.ledger| == |b.ledger| + (if res.Success? then 1 else 0)
  {
  }

  /** The first grant credits the account once and only that account, and every later one credits nothing. */
  lemma SignupExactly(b: Books, u: UserId, credits: int)
    ensures var c := SignupPosting(b, u, credits); var granted := u in b.accounts && b.accounts[u].signupGranted;
      && (forall v :: BalanceIn(c, v) == BalanceIn(b, v) + (if v == u && !granted then credits else 0))
      && u in c.accounts && c.accounts[u].signupGranted && SignupPosting(c, u, credits) == c
  {
  }

  // The books after n attempts to charge the user for a task of this tier.
  function ChargedOften(b: Books, u: UserId, task: TaskId, tier: Tier, n: nat): Books {
    if n == 0 then b else ChargePosting(ChargedOften(b, u, task, tier, n - 1), u, task, tier).0
  }

  // How many runs the credits of a new account pay for.
  function FreeRuns(tier: Tier): nat {
    match tier
    case Light => 50
    case Medium => 16
    case Strong => 1
  }

  lemma ChargeKeepsCap(b: Books, u: UserId, task: TaskId, tier: Tier)
    ensures CappedIn(ChargePosting(b, u, task, tier).0, u) <==> CappedIn(b, u)
  {
  }

  // So far the account paid for `runs` runs of this tier out of its welcome credits.
  ghost predicate PaidFor(b: Books, u: UserId, tier: Tier, runs: nat) {
    BalanceIn(b, u) == SIGNUP_CREDITS - runs * CreditCost(tier) && |b.ledger| == 1 + runs && CappedIn(b, u)
  }

  lemma OneMoreTry(b: Books, u: UserId, task: TaskId, tier: Tier, runs: nat)
    requires PaidFor(b, u, tier, runs) && runs <= FreeRuns(tier)
    ensures PaidFor(ChargePosting(b, u, task, tier).0, u, tier, if runs < FreeRuns(tier) then runs + 1 else runs)
  {
    ChargeExactly(b, u, task, tier);
    ChargeKeepsCap(b, u, task, tier);
    assert BalanceIn(b, u) - CreditCost(tier) >= 0 <==> runs < FreeRuns(tier) by {
      match tier {
        case Light =>
        case Medium =>
        case Strong =>
      }
    }
  }

  /** A new account pays for fifty light, sixteen medium or one strong run from its welcome credits, however often one tries. */
  lemma {:induction false} WelcomeCreditsPayFor(u: UserId, task: TaskId, tier: Tier, n: nat)
    ensures var b := ChargedOften(SignupPosting(EMPTY_BOOKS, u, SIGNUP_CREDITS), u, task, tier, n);
      PaidFor(b, u, tier, if n < FreeRuns(tier) then n else FreeRuns(tier))
    decreases n
  {
    if n == 0 {
      SignupExactly(EMPTY_BOOKS, u, SIGNUP_CREDITS);
    } else {
      var b := ChargedOften(SignupPosting(EMPTY_BOOKS, u, SIGNUP_CREDITS), u, task, tier, n - 1);
      WelcomeCreditsPayFor(u, task, tier, n - 1);
      OneMoreTry(b, u, task, tier, if n - 1 < FreeRuns(tier) then n - 1 else FreeRuns(tier));
    }
  }

  // --- plan, allowance and customer ---

  datatype Terms = Terms(plan: Plan, allowance: int, customer: Option<nat>)

  function TermsOf(b: Books, u: UserId): Terms {
    if u in b.accounts then Terms(b.accounts[u].plan, b.accounts[u].allowance, b.accounts[u].customer) else Terms(Free, 0, None)
  }

  // The empty reference is credited once; its next credit raises, and nothing of that event is kept.
  predicate Raises(b: Books, ev: StripeEvent) {
    CreditOf(ev).Some? && CreditOf(ev).value.1 > 0 && CreditOf(ev).value.2 == Some("") && Posted(b.ledger, "")
  }

  // Whom an event takes for the customer: the paying user of a subscription or of a complete payment.
  function CustomerOf(ev: StripeEvent): Option<(UserId, nat)> {
    match ev
    case CheckoutCompleted(payment, user, clientRef, customer, credits, _) =>
      var who := if user.Some? then user else clientRef;
      if who.Some? && customer.Some? && (payment ==> user.Some? && credits.Some?) then Some((who.value, customer.value)) else None
    case InvoicePaid(user, plan, customer, credits, _) =>
      if user.Some? && plan.Some? && credits.Some? && customer.Some? then Some((user.value, customer.value)) else None
    case _ => None
  }

  // The plan an event puts a user on, with its monthly credits.
  function PlanOf(ev: StripeEvent): Option<(UserId, Plan, int)> {
    match ev
    case InvoicePaid(user, plan, _, credits, _) =>
      if user.Some? && plan.Some? && credits.Some? then Some((user.value, plan.value, credits.value)) else None
    case SubscriptionDeleted(user) => if user.Some? then Some((user.value, Free, 0)) else None
    case _ => None
  }

  function Agreed(terms: Terms, ev: StripeEvent, u: UserId): Terms {
    var known := if CustomerOf(ev).Some? && CustomerOf(ev).value.0 == u then terms.(customer := Some(CustomerOf(ev).value.1)) else terms;
    if PlanOf(ev).Some? && PlanOf(ev).value.0 == u then known.(plan := PlanOf(ev).value.1, allowance := PlanOf(ev).value.2) else known
  }

  // The terms as the events alone have them, the last word counting.
  function TermsAfter(ops: seq<CreditOp>, u: UserId): Terms {
    if ops == [] then Terms(Free, 0, None)
    else
      var front, op := ops[..|ops| - 1], ops[|ops| - 1];
      if op.Webhook? && !Raises(AppliedAll(EMPTY_BOOKS, front), op.event) then Agreed(TermsAfter(front, u), op.event, u) else TermsAfter(front, u)
  }

  lemma PostingTerms(b: Books, u: UserId, delta: int, reason: Reason, task: Option<TaskId>, ref: Option<StripeRef>, guard: Option<int>, v: UserId)
    ensures TermsOf(Posting(b, u, delta, reason, task, ref, guard).0, v) == TermsOf(b, v)
    ensures guard.None? ==> (Posting(b, u, delta, reason, task, ref, guard).1.Failure? <==> delta > 0 && ref == Some("") && Posted(b.ledger, ""))
  {
  }

  lemma RememberedTerms(b: Books, who: Option<UserId>, customer: Option<nat>, v: UserId)
    ensures TermsOf(Remembered(b, who, customer), v)
         == if who == Some(v) && customer.Some? then TermsOf(b, v).(customer := customer) else TermsOf(b, v)
    ensures Remembered(b, who, customer).ledger == b.ledger
  {
  }

  lemma RefillTerms(b: Books, u: UserId, plan: Plan, allowance: int, ref: Option<StripeRef>, v: UserId)
    ensures var (c, res) := RefillPosting(b, u, plan, allowance, ref);
      && (res.Failure? <==> allowance > 0 && ref == Some("") && Posted(b.ledger, ""))
      && (res.Success? ==> TermsOf(c, v) == if v == u then TermsOf(b, v).(plan := plan, allowance := allowance) else TermsOf(b, v))
  {
    var wallet := WithAccount(b, u);
    var planned := wallet.(accounts := wallet.accounts[u := wallet.accounts[u].(plan := plan, allowance := allowance)]);
    PostingTerms(planned, u, allowance, MonthlyRefill, None, ref, None, v);
  }

  lemma EventTerms(b: Books, ev: StripeEvent, v: UserId)
    ensures TermsOf(AfterEvent(b, ev), v) == if Raises(b, ev) then TermsOf(b, v) else Agreed(TermsOf(b, v), ev, v)
  {
    match ev {
      case CheckoutCompleted(payment, user, clientRef, customer, credits, ref) =>
        var who := if user.Some? then user else clientRef;
        RememberedTerms(b, who, customer, v);
        if CreditOf(ev).Some? {
          PostingTerms(Remembered(b, who, customer), user.value, credits.value, Topup, None, ref, None, v);
        }
      case InvoicePaid(user, plan, customer, credits, ref) =>
        RememberedTerms(b, user, customer, v);
        if CreditOf(ev).Some? {
          RefillTerms(Remembered(b, user, customer), user.value, plan.value, credits.value, ref, v);
        }
      case _ =>
    }
  }

  lemma OtherTermsKept(b: Books, op: CreditOp, v: UserId)
    requires !op.Webhook?
    ensures TermsOf(Applied(b, op), v) == TermsOf(b, v)
  {
  }

  /** After any history an account has the plan, the monthly credits and the customer number that the last events to name them gave it. */
  lemma {:induction false} TermsFollowTheLastEvent(ops: seq<CreditOp>, u: UserId)
    ensures TermsOf(AppliedAll(EMPTY_BOOKS, ops), u) == TermsAfter(ops, u)
    decreases |ops|
  {
    if ops != [] {
      var front, op := ops[..|ops| - 1], ops[|ops| - 1];
      TermsFollowTheLastEvent(front, u);
      if op.Webhook? {
        EventTerms(AppliedAll(EMPTY_BOOKS, front), op.event, u);
      } else {
        OtherTermsKept(AppliedAll(EMPTY_BOOKS, front), op, u);
      }
    }
  }

  // What the event has to say about the user is so already.
  predicate Says(ev: StripeEvent, u: UserId, terms: Terms) {
    && (PlanOf(ev).Some? && PlanOf(ev).value.0 == u ==> terms.plan == PlanOf(ev).value.1 && terms.allowance == PlanOf(ev).value.2)
    && (CustomerOf(ev).Some? && CustomerOf(ev).value.0 == u ==> terms.customer == Some(CustomerOf(ev).value.1))
  }

  /**
   So an event delivered again leaves the user's terms alone exactly when they still are what it says.
   An invoice that comes again after the subscription ended revives the plan, without any credits.
   */
  lemma RedeliveryKeepsTermsIff(ops: seq<CreditOp>, ev: StripeEvent, u: UserId)
    ensures TermsOf(AppliedAll(EMPTY_BOOKS, ops + [Webhook(ev)]), u) == TermsOf(AppliedAll(EMPTY_BOOKS, ops), u)
       <==> Raises(AppliedAll(EMPTY_BOOKS, ops), ev) || Says(ev, u, TermsAfter(ops, u))
  {
    var longer := ops + [Webhook(ev)];
    assert longer[..|ops|] == ops;
    TermsFollowTheLastEvent(ops, u);
    TermsFollowTheLastEvent(longer, u);
  }

  const INVOICE := InvoicePaid(Some(7), Some(Pro), None, Some(8000), Some("in_1"))

  lemma LateInvoiceRevivesThePlan()
    ensures var ended := [Webhook(INVOICE), Webhook(SubscriptionDeleted(Some(7)))];
      && TermsOf(AppliedAll(EMPTY_BOOKS, ended), 7) == Terms(Free, 0, None)
      && TermsOf(AppliedAll(EMPTY_BOOKS, ended + [Webhook(INVOICE)]), 7) == Terms(Pro, 8000, None)
      && StripeTotal(AppliedAll(EMPTY_BOOKS, ended + [Webhook(INVOICE)]).ledger, 7) == StripeTotal(AppliedAll(EMPTY_BOOKS, ended).ledger, 7)
  {
    var once := [Webhook(INVOICE)];
    var ended := [Webhook(INVOICE), Webhook(SubscriptionDeleted(Some(7)))];
    assert once[..0] == [] && ended[..1] == once && (ended + once)[..2] == ended;
    TermsFollowTheLastEvent(ended, 7);
    TermsFollowTheLastEvent(ended + once, 7);
    EventLedger(EMPTY_BOOKS, INVOICE);
    assert AppliedAll(EMPTY_BOOKS, once) == AfterEvent(EMPTY_BOOKS, INVOICE);
    var b := AfterEvent(EMPTY_BOOKS, INVOICE);
    assert b.ledger[0] in b.ledger;
    assert Posted(b.ledger, "in_1");
    EventLedger(b, SubscriptionDeleted(Some(7)));
    EventLedger(AppliedAll(EMPTY_BOOKS, ended), INVOICE);
  }
}
