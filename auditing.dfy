/**
 * The audit runner of `zoo.auditing.runner`: the context handed to checks, the
 * runner that isolates failing checks, the issue status state machine, the
 * reconciliation of results into persisted Issue rows (a keyed table updated in
 * place), the soft-delete sweep, and the Slack notification fan-out.
 *
 * The clock is the parameter `now`, Slack delivery is the function
 * `NotifyEnv.deliver`, and structured log output is returned as a list of events.
 */
module Auditing {
  import opened Wrappers
  import opened Json

  datatype Status = New | Reopened | Fixed | NotFound | Wontfix

  /** The repository fields the runner reads. */
  datatype Repository = Repository(id: int, owner: string, name: string, projectType: string)

  /** `Result(issue_key, is_found, details=None)`; `is_found == None` means inconclusive. */
  datatype CheckResult = CheckResult(issueKey: string, isFound: Option<bool>, details: Option<Details>)

  /** The single argument of every check. */
  datatype CheckContext = CheckContext(owner: string, name: string, path: string, projectType: string) {
    /** `context.Result(issue_key, is_found, details=None)`. */
    function MakeResult(issueKey: string, isFound: Option<bool>, details: Option<Details> := None): (r: CheckResult)
      ensures r.issueKey == issueKey && r.isFound == isFound && r.details == details
    {
      CheckResult(issueKey, isFound, details)
    }
  }

  /** `CheckContext(repository, path)`. */
  function NewCheckContext(repo: Repository, path: string): (ctx: CheckContext)
    ensures ctx.owner == repo.owner && ctx.name == repo.name
    ensures ctx.path == path && ctx.projectType == repo.projectType
  {
    CheckContext(repo.owner, repo.name, path, repo.projectType)
  }

  /**
   * What calling a check gave: its results, whether it returned a list or was a
   * generator, or an exception raised while calling or iterating it.
   */
  datatype CheckOutput = Produced(results: seq<CheckResult>) | Raised

  /** A check function: its `__name__`, its `__module__`, and what it does to a context. */
  datatype Check = Check(name: string, checkModule: string, run: CheckContext -> CheckOutput)

  /** Structured log events the core emits through `log.exception`. */
  datatype LogEvent =
    | CheckError(repoId: int, check: string, checkModule: string)  // "auditing.check.error"
    | SlackError(error: string)                                    // "auditing.update_issue.slack_error"

  // ---------------------------------------------------------------------------
  // Status state machine

  /** `determine_issue_status(is_found, old_status)`. */
  function DetermineIssueStatus(isFound: bool, current: Status): (r: Status)
    ensures r == New <==> isFound && (current == NotFound || current == New)
    ensures r == Reopened <==> isFound && (current == Fixed || current == Reopened)
    ensures r == Wontfix <==> isFound && current == Wontfix
    ensures r == Fixed <==> !isFound && current != NotFound
    ensures r == NotFound <==> !isFound && current == NotFound
  {
    if isFound then
      (match current
       case NotFound => New
       case New => New
       case Fixed => Reopened
       case Reopened => Reopened
       case Wontfix => Wontfix)
    else if current == NotFound then NotFound
    else Fixed
  }

  /** The runner's ten-row table of (is_found, old status, new status). */
  const StatusTable: seq<(bool, Status, Status)> := [
    (true, NotFound, New),
    (true, New, New),
    (true, Fixed, Reopened),
    (true, Reopened, Reopened),
    (true, Wontfix, Wontfix),
    (false, NotFound, NotFound),
    (false, New, Fixed),
    (false, Reopened, Fixed),
    (false, Fixed, Fixed),
    (false, Wontfix, Fixed)
  ]

  /** The state machine is exactly the table: every row holds, and every (found, status) pair has its row. */
  lemma {:induction false} StatusTableIsExact()
    ensures forall k :: 0 <= k < |StatusTable| ==>
      DetermineIssueStatus(StatusTable[k].0, StatusTable[k].1) == StatusTable[k].2
    ensures forall f: bool, s: Status :: (f, s, DetermineIssueStatus(f, s)) in StatusTable
  {
  }

  /** Re-applying the same outcome does not move the status again. */
  lemma {:induction false} StatusIsIdempotent(isFound: bool, s: Status)
    ensures DetermineIssueStatus(isFound, DetermineIssueStatus(isFound, s)) == DetermineIssueStatus(isFound, s)
  {
  }

  // ---------------------------------------------------------------------------
  // Runner

  /** The results the runner passes on from one list: those whose `is_found` is not `None`, in order. */
  function Conclusive(results: seq<CheckResult>): (r: seq<CheckResult>)
    ensures |r| <= |results|
    ensures forall x :: x in r <==> x in results && x.isFound.Some?
  {
    if results == [] then []
    else
      var last := results[|results| - 1];
      assert results == results[..|results| - 1] + [last];
      Conclusive(results[..|results| - 1]) + (if last.isFound.Some? then [last] else [])
  }

  /** What one check contributes to the runner's output: nothing if it raised. */
  function Contribution(output: CheckOutput): seq<CheckResult> {
    match output
    case Raised => []
    case Produced(results) => Conclusive(results)
  }

  /** The runner's output for a list of checks: check order, then emission order. */
  function Collected(checks: seq<Check>, ctx: CheckContext): (r: seq<CheckResult>)
    ensures forall x :: x in r ==> x.isFound.Some?
  {
    if checks == [] then []
    else Collected(checks[..|checks| - 1], ctx) + Contribution(checks[|checks| - 1].run(ctx))
  }

  /** The error events of a run: one per raising check, naming the repository and the check. */
  function ErrorsLogged(checks: seq<Check>, ctx: CheckContext, repoId: int): seq<LogEvent> {
    if checks == [] then []
    else
      var c := checks[|checks| - 1];
      ErrorsLogged(checks[..|checks| - 1], ctx, repoId)
        + (if c.run(ctx).Raised? then [CheckError(repoId, c.name, c.checkModule)] else [])
  }

  /** The runner's inner loop: passes on the results of one check whose `is_found` is not `None`. */
  method KeepConclusive(rs: seq<CheckResult>) returns (kept: seq<CheckResult>)
    ensures kept == Conclusive(rs)
  {
    kept := [];
    for j := 0 to |rs|
      invariant kept == Conclusive(rs[..j])
    {
      assert rs[..j + 1][..j] == rs[..j];
      if rs[j].isFound.Some? {
        kept := kept + [rs[j]];
      }
    }
    assert rs[..|rs|] == rs;
  }

  /** `check_repository(checks, repository, path)`, with the `log.exception` calls returned as `log`. */
  method CheckRepository(checks: seq<Check>, repo: Repository, path: string)
    returns (results: seq<CheckResult>, log: seq<LogEvent>)
    ensures results == Collected(checks, NewCheckContext(repo, path))
    ensures log == ErrorsLogged(checks, NewCheckContext(repo, path), repo.id)
  {
    var ctx := NewCheckContext(repo, path);
    results, log := [], [];
    for i := 0 to |checks|
      invariant results == Collected(checks[..i], ctx)
      invariant log == ErrorsLogged(checks[..i], ctx, repo.id)
    {
      assert checks[..i + 1][..i] == checks[..i];
      var output := checks[i].run(ctx);
      match output
      case Raised =>
        log := log + [CheckError(repo.id, checks[i].name, checks[i].checkModule)];
      case Produced(rs) =>
        var kept := KeepConclusive(rs);
        results := results + kept;
    }
    assert checks[..|checks|] == checks;
  }

  lemma {:induction false} CollectedAppend(a: seq<Check>, b: seq<Check>, ctx: CheckContext)
    ensures Collected(a + b, ctx) == Collected(a, ctx) + Collected(b, ctx)
    decreases |b|
  {
    if b == [] {
      assert a + b == a;
    } else {
      assert (a + b)[..|a + b| - 1] == a + b[..|b| - 1];
      assert (a + b)[|a + b| - 1] == b[|b| - 1];
      CollectedAppend(a, b[..|b| - 1], ctx);
    }
  }

  lemma {:induction false} ErrorsLoggedAppend(a: seq<Check>, b: seq<Check>, ctx: CheckContext, repoId: int)
    ensures ErrorsLogged(a + b, ctx, repoId) == ErrorsLogged(a, ctx, repoId) + ErrorsLogged(b, ctx, repoId)
    decreases |b|
  {
    if b == [] {
      assert a + b == a;
    } else {
      assert (a + b)[..|a + b| - 1] == a + b[..|b| - 1];
      ErrorsLoggedAppend(a, b[..|b| - 1], ctx, repoId);
    }
  }

  /** A raising check contributes no results; the checks after it still run and keep their order. */
  lemma {:induction false} RaisingCheckContributesNothing(before: seq<Check>, failing: Check, after: seq<Check>, ctx: CheckContext)
    requires failing.run(ctx).Raised?
    ensures Collected(before + [failing] + after, ctx) == Collected(before + after, ctx)
  {
    var upTo := before + [failing];
    CollectedAppend(upTo, after, ctx);
    assert Collected(upTo, ctx) == Collected(before, ctx) by {
      assert upTo[..|upTo| - 1] == before;
    }
    CollectedAppend(before, after, ctx);
  }

  /** A raising check adds exactly one error event, naming the repository and the check. */
  lemma {:induction false} RaisingCheckLogsOnce(before: seq<Check>, failing: Check, after: seq<Check>, ctx: CheckContext, repoId: int)
    requires failing.run(ctx).Raised?
    ensures ErrorsLogged(before + [failing] + after, ctx, repoId)
         == ErrorsLogged(before, ctx, repoId) + [CheckError(repoId, failing.name, failing.checkModule)] + ErrorsLogged(after, ctx, repoId)
  {
    ErrorsLoggedAppend(before + [failing], after, ctx, repoId);
    ErrorsLoggedAppend(before, [failing], ctx, repoId);
    assert [failing][..0] == [];
  }

  /** A result reaches the output exactly when some check emitted it with a conclusive `is_found`. */
  lemma {:induction false} CollectedMembers(checks: seq<Check>, ctx: CheckContext, x: CheckResult)
    ensures x in Collected(checks, ctx) <==>
      exists i :: 0 <= i < |checks| && checks[i].run(ctx).Produced? && x in checks[i].run(ctx).results && x.isFound.Some?
  {
    if checks != [] {
      var n := |checks| - 1;
      CollectedMembers(checks[..n], ctx, x);
      if exists i :: 0 <= i < |checks| && checks[i].run(ctx).Produced? && x in checks[i].run(ctx).results && x.isFound.Some? {
        var i :| 0 <= i < |checks| && checks[i].run(ctx).Produced? && x in checks[i].run(ctx).results && x.isFound.Some?;
        if i < n {
          assert checks[..n][i] == checks[i];
        }
      }
    }
  }

  // ---------------------------------------------------------------------------
  // Issues and the keyed table that holds them

  /** A persisted Issue row, unique per (repository, kind_key). */
  datatype Issue = Issue(
    pk: nat,
    repoId: int,
    kindKey: string,
    status: Status,
    details: Details,
    lastCheck: int,
    deleted: bool,
    comment: string,
    remoteIssueId: Option<int>,
    remoteIssueUrl: Option<string>)

  /** (repository id, kind_key): the unique key of an Issue row. */
  type IssueId = (int, string)

  /** All Issue rows, and the next primary key the database hands out. */
  datatype Table = Table(rows: map<IssueId, Issue>, nextPk: nat)

  /** Every row sits under its own (repository, kind_key) and has a primary key already handed out. */
  ghost predicate WellKeyed(t: Table) {
    forall id :: id in t.rows ==> t.rows[id].repoId == id.0 && t.rows[id].kindKey == id.1 && t.rows[id].pk < t.nextPk
  }

  function Lookup(rows: map<IssueId, Issue>, id: IssueId): Option<Issue> {
    if id in rows then Some(rows[id]) else None
  }

  /** The status the state machine starts from: the row's, or NOT_FOUND for a row not yet created. */
  function PriorStatus(rows: map<IssueId, Issue>, id: IssueId): Status {
    if id in rows then rows[id].status else NotFound
  }

  /** The details `save_check_result` stores: the supplied mapping (or `{}`) if found, `{}` otherwise. */
  function SavedDetails(isFound: bool, details: Option<Details>): (d: Details)
    ensures !isFound ==> d == map[]
    ensures isFound && details.Some? ==> d == details.value
    ensures isFound && details.None? ==> d == map[]
  {
    if isFound then details.GetOr(map[]) else map[]
  }

  /** The row `save_check_result` leaves behind, given the row before (if any). */
  function Reconciled(prior: Option<Issue>, pk: nat, id: IssueId, isFound: bool, details: Option<Details>, now: int): Issue {
    var base := prior.GetOr(Issue(pk, id.0, id.1, NotFound, map[], now, false, "", None, None));
    base.(status := DetermineIssueStatus(isFound, base.status), details := SavedDetails(isFound, details), lastCheck := now)
  }

  /** The table after `save_check_result(repository, issue_key, is_found, details)`. */
  function SaveIn(t: Table, id: IssueId, isFound: bool, details: Option<Details>, now: int): Table {
    Table(t.rows[id := Reconciled(Lookup(t.rows, id), t.nextPk, id, isFound, details, now)],
          if id in t.rows then t.nextPk else t.nextPk + 1)
  }

  /**
   * A save touches only its own row and keeps the table well keyed: the saved row has
   * the recomputed status, the new details and `last_check == now`, and keeps its key,
   * primary key, deleted flag and comment.
   */
  lemma {:induction false} SaveInEffect(t: Table, id: IssueId, isFound: bool, details: Option<Details>, now: int)
    requires WellKeyed(t)
    ensures var t' := SaveIn(t, id, isFound, details, now);
      && WellKeyed(t')
      && (forall other :: other in t'.rows <==> other in t.rows || other == id)
      && (forall other :: other in t.rows && other != id ==> t'.rows[other] == t.rows[other])
      && t'.rows[id].status == DetermineIssueStatus(isFound, PriorStatus(t.rows, id))
      && t'.rows[id].details == SavedDetails(isFound, details)
      && t'.rows[id].lastCheck == now
      && t'.rows[id].repoId == id.0 && t'.rows[id].kindKey == id.1
      && (id in t.rows ==> t'.rows[id].pk == t.rows[id].pk && t'.rows[id].deleted == t.rows[id].deleted
                           && t'.rows[id].comment == t.rows[id].comment)
  {
  }

  /** Exactly one row per key: a save adds a row only when its key is new. */
  lemma {:induction false} SaveInCount(t: Table, id: IssueId, isFound: bool, details: Option<Details>, now: int)
    ensures |SaveIn(t, id, isFound, details, now).rows| == if id in t.rows then |t.rows| else |t.rows| + 1
  {
    var t' := SaveIn(t, id, isFound, details, now);
    if id in t.rows {
      assert t'.rows.Keys == t.rows.Keys;
    } else {
      assert t'.rows.Keys == t.rows.Keys + {id};
    }
  }

  /** The first save of a key creates the row with status NEW if found and NOT_FOUND otherwise. */
  lemma {:induction false} FirstSaveStatus(t: Table, id: IssueId, isFound: bool, details: Option<Details>, now: int)
    requires id !in t.rows
    ensures var row := SaveIn(t, id, isFound, details, now).rows[id];
      && row.status == (if isFound then New else NotFound)
      && row.details == (if isFound then details.GetOr(map[]) else map[])
      && row.lastCheck == now && !row.deleted && row.pk == t.nextPk
  {
  }

  /** Saving the same outcome twice leaves the same status and details as saving it once. */
  lemma {:induction false} SaveIsIdempotent(t: Table, id: IssueId, isFound: bool, details: Option<Details>, now: int, later: int)
    ensures var once := SaveIn(t, id, isFound, details, now);
      var twice := SaveIn(once, id, isFound, details, later);
      && twice.rows[id] == once.rows[id].(lastCheck := later)
      && twice.rows.Keys == once.rows.Keys
  {
    StatusIsIdempotent(isFound, PriorStatus(t.rows, id));
  }

  /** The documented life of one key: not found, found, gone, back again. */
  lemma {:induction false} CoffeeScenario(t: Table, repoId: int, t1: int, t2: int, t3: int, t4: int)
    requires (repoId, "missing:coffee") !in t.rows
    ensures var id := (repoId, "missing:coffee");
      var espresso := map["type" := Str("espresso")];
      var s1 := SaveIn(t, id, false, None, t1);
      var s2 := SaveIn(s1, id, true, Some(espresso), t2);
      var s3 := SaveIn(s2, id, false, None, t3);
      var s4 := SaveIn(s3, id, true, None, t4);
      && s1.rows[id].status == NotFound && s1.rows[id].details == map[]
      && s2.rows[id].status == New && s2.rows[id].details == espresso
      && s3.rows[id].status == Fixed && s3.rows[id].details == map[]
      && s4.rows[id].status == Reopened
  {
  }

  // ---------------------------------------------------------------------------
  // Notifications

  /** The Service fields the core reads. */
  datatype Service = Service(
    id: int,
    owner: string,
    name: string,
    ownerSlug: string,
    nameSlug: string,
    repoId: Option<int>,
    slackChannel: Option<string>,
    status: Option<string>)

  /** `reverse("audit_report", args=(project_type, owner_slug, name_slug))`. */
  datatype ReportLink = ReportLink(projectType: string, ownerSlug: string, nameSlug: string)

  /** One `slack.chat.post_message(channel, text)` call; the text carries the title, repository name and link. */
  datatype Message = Message(channel: string, title: string, repoName: string, link: ReportLink)

  /**
   * What notification needs from outside: the services table, the kind registry's
   * titles, and Slack delivery (`None` when delivered, `Some(repr(error))` when it raised).
   */
  datatype NotifyEnv = NotifyEnv(services: seq<Service>, titleOf: string -> string, deliver: string -> Option<string>)

  /** The services owning repository `repoId` that have a Slack channel, in table order. */
  function NotifiedOwners(services: seq<Service>, repoId: int): (r: seq<Service>)
    ensures |r| <= |services|
    ensures forall s :: s in r <==> s in services && s.repoId == Some(repoId) && s.slackChannel.Some?
  {
    if services == [] then []
    else
      var last := services[|services| - 1];
      assert services == services[..|services| - 1] + [last];
      NotifiedOwners(services[..|services| - 1], repoId)
        + (if last.repoId == Some(repoId) && last.slackChannel.Some? then [last] else [])
  }

  function MessageFor(s: Service, issue: Issue, repo: Repository, titleOf: string -> string): Message
    requires s.slackChannel.Some?
  {
    Message(s.slackChannel.value, titleOf(issue.kindKey), repo.name, ReportLink("services", s.ownerSlug, s.nameSlug))
  }

  /** The messages for a list of owners, one each, in order. */
  function MessagesFor(owners: seq<Service>, issue: Issue, repo: Repository, titleOf: string -> string): seq<Message>
    requires forall s :: s in owners ==> s.slackChannel.Some?
  {
    if owners == [] then []
    else
      var n := |owners| - 1;
      assert owners[n] in owners;
      assert forall s :: s in owners[..n] ==> s in owners;
      MessagesFor(owners[..n], issue, repo, titleOf) + [MessageFor(owners[n], issue, repo, titleOf)]
  }

  /** The messages `notify_status_change` sends: one per owning service, in order. */
  function Notifications(issue: Issue, repo: Repository, env: NotifyEnv): seq<Message> {
    MessagesFor(NotifiedOwners(env.services, repo.id), issue, repo, env.titleOf)
  }

  /** One error event per message whose delivery raised. */
  function DeliveryErrors(msgs: seq<Message>, deliver: string -> Option<string>): (r: seq<LogEvent>)
    ensures |r| <= |msgs|
    ensures forall e :: e in r <==> e.SlackError? && exists m :: m in msgs && deliver(m.channel) == Some(e.error)
  {
    if msgs == [] then []
    else
      var last := msgs[|msgs| - 1];
      assert msgs == msgs[..|msgs| - 1] + [last];
      var rest := DeliveryErrors(msgs[..|msgs| - 1], deliver);
      match deliver(last.channel)
      case Some(e) => rest + [SlackError(e)]
      case None => rest
  }

  /** One more owner is one more message, in order. */
  lemma {:induction false} MessagesForStep(owners: seq<Service>, i: int, issue: Issue, repo: Repository, titleOf: string -> string)
    requires forall s :: s in owners ==> s.slackChannel.Some?
    requires 0 <= i < |owners|
    ensures forall s :: s in owners[..i] ==> s.slackChannel.Some?
    ensures MessagesFor(owners[..i + 1], issue, repo, titleOf)
      == MessagesFor(owners[..i], issue, repo, titleOf) + [MessageFor(owners[i], issue, repo, titleOf)]
  {
    assert owners[..i + 1][..i] == owners[..i];
    assert owners[..i + 1][i] == owners[i];
  }

  /** One more message adds an error exactly when its delivery raised. */
  lemma {:induction false} DeliveryErrorsStep(msgs: seq<Message>, m: Message, deliver: string -> Option<string>)
    ensures DeliveryErrors(msgs + [m], deliver)
      == DeliveryErrors(msgs, deliver) + (match deliver(m.channel) case Some(e) => [SlackError(e)] case None => [])
  {
    assert (msgs + [m])[..|msgs|] == msgs;
  }

  /** `notify_status_change(issue)`: every owner is attempted, whatever happened to the previous sends. */
  method NotifyStatusChange(issue: Issue, repo: Repository, env: NotifyEnv)
    returns (attempts: seq<Message>, errors: seq<LogEvent>)
    requires issue.repoId == repo.id
    ensures attempts == Notifications(issue, repo, env)
    ensures errors == DeliveryErrors(attempts, env.deliver)
  {
    var owners := NotifiedOwners(env.services, repo.id);
    attempts, errors := [], [];
    for i := 0 to |owners|
      invariant attempts == MessagesFor(owners[..i], issue, repo, env.titleOf)
      invariant errors == DeliveryErrors(attempts, env.deliver)
    {
      MessagesForStep(owners, i, issue, repo, env.titleOf);
      var msg := MessageFor(owners[i], issue, repo, env.titleOf);
      DeliveryErrorsStep(attempts, msg, env.deliver);
      attempts := attempts + [msg];
      match env.deliver(msg.channel)
      case Some(e) =>
        errors := errors + [SlackError(e)];
      case None =>
    }
    assert owners[..|owners|] == owners;
  }

  /** Each owner gets exactly one message, to its own channel, about this issue and repository. */
  lemma {:induction false} OneMessagePerOwner(owners: seq<Service>, issue: Issue, repo: Repository, titleOf: string -> string)
    requires forall s :: s in owners ==> s.slackChannel.Some?
    ensures var msgs := MessagesFor(owners, issue, repo, titleOf);
      && |msgs| == |owners|
      && (forall i :: 0 <= i < |msgs| ==>
            msgs[i].channel == owners[i].slackChannel.value
            && msgs[i].title == titleOf(issue.kindKey) && msgs[i].repoName == repo.name
            && msgs[i].link == ReportLink("services", owners[i].ownerSlug, owners[i].nameSlug))
  {
    if owners != [] {
      var n := |owners| - 1;
      assert forall s :: s in owners[..n] ==> s in owners;
      OneMessagePerOwner(owners[..n], issue, repo, titleOf);
      var prev := MessagesFor(owners[..n], issue, repo, titleOf);
      var msgs := MessagesFor(owners, issue, repo, titleOf);
      assert msgs == prev + [MessageFor(owners[n], issue, repo, titleOf)];
      forall i | 0 <= i < n
        ensures msgs[i] == prev[i] && owners[i] == owners[..n][i]
      {
      }
    }
  }

  /** When every send raises, each attempt is logged once: failures are isolated per service. */
  lemma {:induction false} AllFailuresLogged(msgs: seq<Message>, deliver: string -> Option<string>)
    requires forall m :: m in msgs ==> deliver(m.channel).Some?
    ensures |DeliveryErrors(msgs, deliver)| == |msgs|
  {
    if msgs != [] {
      AllFailuresLogged(msgs[..|msgs| - 1], deliver);
    }
  }

  // ---------------------------------------------------------------------------
  // Batch orchestration

  /** The issue keys a list of results carries. */
  function KeysOf(results: seq<CheckResult>): (keys: set<string>)
    ensures forall k :: k in keys <==> exists r :: r in results && r.issueKey == k
  {
    if results == [] then {}
    else
      var n := |results| - 1;
      assert results == results[..n] + [results[n]];
      KeysOf(results[..n]) + {results[n].issueKey}
  }

  /** The table after saving a list of results one by one. */
  function SaveResults(t: Table, repoId: int, results: seq<CheckResult>, now: int): Table
    requires forall r :: r in results ==> r.isFound.Some?
  {
    if results == [] then t
    else
      var n := |results| - 1;
      assert results[n] in results;
      assert forall r :: r in results[..n] ==> r in results;
      var before := SaveResults(t, repoId, results[..n], now);
      SaveIn(before, (repoId, results[n].issueKey), results[n].isFound.value, results[n].details, now)
  }

  /** The table, the messages sent and the log, as a run goes along. */
  datatype Progress = Progress(table: Table, sent: seq<Message>, log: seq<LogEvent>)

  /** Saves one result, then notifies the owners if its status changed. */
  function SaveAndNotifyOne(p: Progress, repo: Repository, r: CheckResult, now: int, env: NotifyEnv): (q: Progress)
    requires r.isFound.Some?
    ensures q.table == SaveIn(p.table, (repo.id, r.issueKey), r.isFound.value, r.details, now)
  {
    var id := (repo.id, r.issueKey);
    var t := SaveIn(p.table, id, r.isFound.value, r.details, now);
    if t.rows[id].status != PriorStatus(p.table.rows, id) then
      var msgs := Notifications(t.rows[id], repo, env);
      Progress(t, p.sent + msgs, p.log + DeliveryErrors(msgs, env.deliver))
    else
      Progress(t, p.sent, p.log)
  }

  /** Saving a list of results, notifying after each status change. */
  function SaveAndNotify(p: Progress, repo: Repository, results: seq<CheckResult>, now: int, env: NotifyEnv): (q: Progress)
    requires forall r :: r in results ==> r.isFound.Some?
    ensures q.table == SaveResults(p.table, repo.id, results, now)
  {
    if results == [] then p
    else
      var n := |results| - 1;
      assert results[n] in results;
      assert forall r :: r in results[..n] ==> r in results;
      SaveAndNotifyOne(SaveAndNotify(p, repo, results[..n], now, env), repo, results[n], now, env)
  }

  /** Filtering one more result keeps it exactly when it is conclusive. */
  lemma {:induction false} ConclusiveStep(rs: seq<CheckResult>, j: int)
    requires 0 <= j < |rs|
    ensures Conclusive(rs[..j + 1]) == Conclusive(rs[..j]) + (if rs[j].isFound.Some? then [rs[j]] else [])
  {
    assert rs[..j + 1][..j] == rs[..j];
  }

  /** Saving one more conclusive result is one more `SaveAndNotifyOne` step. */
  lemma {:induction false} SaveAndNotifySnoc(p: Progress, repo: Repository, kept: seq<CheckResult>, r: CheckResult, now: int, env: NotifyEnv)
    requires forall x :: x in kept ==> x.isFound.Some?
    requires r.isFound.Some?
    ensures SaveAndNotify(p, repo, kept + [r], now, env) == SaveAndNotifyOne(SaveAndNotify(p, repo, kept, now, env), repo, r, now, env)
  {
    assert (kept + [r])[..|kept|] == kept;
  }

  /**
   * The runner consumed lazily: each check in turn either logs its error or has its
   * conclusive results saved (with notifications) before the next check runs.
   */
  function RunAll(p: Progress, checks: seq<Check>, ctx: CheckContext, repo: Repository, now: int, env: NotifyEnv): Progress {
    if checks == [] then p
    else
      var c := checks[|checks| - 1];
      var q := RunAll(p, checks[..|checks| - 1], ctx, repo, now, env);
      match c.run(ctx)
      case Raised => q.(log := q.log + [CheckError(repo.id, c.name, c.checkModule)])
      case Produced(rs) => SaveAndNotify(q, repo, Conclusive(rs), now, env)
  }

  /** Running one more check: its error is logged, or its conclusive results are saved; its keys join the produced set. */
  lemma {:induction false} RunAllStep(p: Progress, checks: seq<Check>, i: int, ctx: CheckContext, repo: Repository, now: int, env: NotifyEnv)
    requires 0 <= i < |checks|
    ensures var q := RunAll(p, checks[..i], ctx, repo, now, env);
      RunAll(p, checks[..i + 1], ctx, repo, now, env)
        == match checks[i].run(ctx)
           case Raised => q.(log := q.log + [CheckError(repo.id, checks[i].name, checks[i].checkModule)])
           case Produced(rs) => SaveAndNotify(q, repo, Conclusive(rs), now, env)
    ensures KeysOf(Collected(checks[..i + 1], ctx))
      == KeysOf(Collected(checks[..i], ctx)) + KeysOf(Contribution(checks[i].run(ctx)))
  {
    assert checks[..i + 1][..i] == checks[..i];
    KeysOfAppend(Collected(checks[..i], ctx), Contribution(checks[i].run(ctx)));
  }

  /**
   * The sweep: every not-yet-deleted row of the repository whose key the run did not
   * produce is marked deleted. Only the flag changes; no row appears or disappears.
   */
  function Swept(rows: map<IssueId, Issue>, repoId: int, produced: set<string>): (r: map<IssueId, Issue>)
    ensures r.Keys == rows.Keys
    ensures forall id :: id in rows ==> r[id] == rows[id].(deleted := r[id].deleted)
    ensures forall id :: id in rows ==> (r[id].deleted <==> rows[id].deleted || (id.0 == repoId && id.1 !in produced))
  {
    map id | id in rows ::
      if id.0 == repoId && !rows[id].deleted && id.1 !in produced then rows[id].(deleted := true) else rows[id]
  }

  /** `run_checks_and_save_results(checks, repository, path)` as a function of the table before. */
  function RunOutcome(t: Table, checks: seq<Check>, repo: Repository, path: string, now: int, env: NotifyEnv): Progress {
    var ctx := NewCheckContext(repo, path);
    var p := RunAll(Progress(t, [], []), checks, ctx, repo, now, env);
    p.(table := p.table.(rows := Swept(p.table.rows, repo.id, KeysOf(Collected(checks, ctx)))))
  }

  /** The `auditing.check.error` events of a log, in order. */
  function CheckErrorsOf(log: seq<LogEvent>): (r: seq<LogEvent>)
    ensures forall e :: e in r <==> e in log && e.CheckError?
  {
    if log == [] then []
    else
      var n := |log| - 1;
      assert log == log[..n] + [log[n]];
      CheckErrorsOf(log[..n]) + (if log[n].CheckError? then [log[n]] else [])
  }

  lemma {:induction false} CheckErrorsOfAppend(a: seq<LogEvent>, b: seq<LogEvent>)
    ensures CheckErrorsOf(a + b) == CheckErrorsOf(a) + CheckErrorsOf(b)
    decreases |b|
  {
    if b == [] {
      assert a + b == a;
    } else {
      var n := |b| - 1;
      assert (a + b)[..|a + b| - 1] == a + b[..n];
      assert (a + b)[|a + b| - 1] == b[n];
      CheckErrorsOfAppend(a, b[..n]);
    }
  }

  lemma {:induction false} AppendAssociates(a: seq<LogEvent>, b: seq<LogEvent>, c: seq<LogEvent>)
    ensures (a + b) + c == a + (b + c)
  {
  }

  /** Failed Slack deliveries are logged as Slack errors, never as check errors. */
  lemma {:induction false} DeliveryErrorsAreNotCheckErrors(msgs: seq<Message>, deliver: string -> Option<string>)
    ensures CheckErrorsOf(DeliveryErrors(msgs, deliver)) == []
  {
    if msgs != [] {
      var n := |msgs| - 1;
      DeliveryErrorsAreNotCheckErrors(msgs[..n], deliver);
      var rest := DeliveryErrors(msgs[..n], deliver);
      match deliver(msgs[n].channel)
      case Some(e) =>
        CheckErrorsOfAppend(rest, [SlackError(e)]);
        assert [SlackError(e)][..0] == [];
      case None =>
    }
  }

  /** Saving and notifying adds no check error to the log. */
  lemma {:induction false} SaveAndNotifyCheckErrors(p: Progress, repo: Repository, results: seq<CheckResult>, now: int, env: NotifyEnv)
    requires forall r :: r in results ==> r.isFound.Some?
    ensures CheckErrorsOf(SaveAndNotify(p, repo, results, now, env).log) == CheckErrorsOf(p.log)
  {
    if results != [] {
      var n := |results| - 1;
      assert results[n] in results;
      assert forall r :: r in results[..n] ==> r in results;
      SaveAndNotifyCheckErrors(p, repo, results[..n], now, env);
      var q := SaveAndNotify(p, repo, results[..n], now, env);
      var id := (repo.id, results[n].issueKey);
      var t := SaveIn(q.table, id, results[n].isFound.value, results[n].details, now);
      if t.rows[id].status != PriorStatus(q.table.rows, id) {
        var msgs := Notifications(t.rows[id], repo, env);
        CheckErrorsOfAppend(q.log, DeliveryErrors(msgs, env.deliver));
        DeliveryErrorsAreNotCheckErrors(msgs, env.deliver);
      }
    }
  }

  /** The check errors a run appends are `ErrorsLogged`: one per raising check, in check order. */
  lemma {:induction false} RunAllCheckErrors(p: Progress, checks: seq<Check>, ctx: CheckContext, repo: Repository, now: int, env: NotifyEnv)
    ensures CheckErrorsOf(RunAll(p, checks, ctx, repo, now, env).log) == CheckErrorsOf(p.log) + ErrorsLogged(checks, ctx, repo.id)
  {
    if checks == [] {
      assert CheckErrorsOf(p.log) + [] == CheckErrorsOf(p.log);
    } else {
      var n := |checks| - 1;
      RunAllCheckErrors(p, checks[..n], ctx, repo, now, env);
      RunAllLast(p, checks, ctx, repo, now, env);
      OneCheckErrors(RunAll(p, checks[..n], ctx, repo, now, env), checks[n], ctx, repo, now, env);
      var e := if checks[n].run(ctx).Raised? then [CheckError(repo.id, checks[n].name, checks[n].checkModule)] else [];
      AppendAssociates(CheckErrorsOf(p.log), ErrorsLogged(checks[..n], ctx, repo.id), e);
    }
  }

  /** The last check of a run runs on the progress the others left. */
  lemma {:induction false} RunAllLast(p: Progress, checks: seq<Check>, ctx: CheckContext, repo: Repository, now: int, env: NotifyEnv)
    requires checks != []
    ensures var n := |checks| - 1;
      RunAll(p, checks, ctx, repo, now, env) == RunAll(RunAll(p, checks[..n], ctx, repo, now, env), [checks[n]], ctx, repo, now, env)
  {
    assert [checks[|checks| - 1]][..0] == [];
  }

  /** One check of the run adds its error event when it raises, and no check error otherwise. */
  lemma {:induction false} OneCheckErrors(q: Progress, c: Check, ctx: CheckContext, repo: Repository, now: int, env: NotifyEnv)
    ensures CheckErrorsOf(RunAll(q, [c], ctx, repo, now, env).log)
      == CheckErrorsOf(q.log) + (if c.run(ctx).Raised? then [CheckError(repo.id, c.name, c.checkModule)] else [])
  {
    assert [c][..0] == [];
    match c.run(ctx)
    case Raised =>
      var e := CheckError(repo.id, c.name, c.checkModule);
      CheckErrorsOfAppend(q.log, [e]);
      assert [e][..0] == [];
    case Produced(rs) =>
      SaveAndNotifyCheckErrors(q, repo, Conclusive(rs), now, env);
  }

  /**
   * The error events of `run_checks_and_save_results`: exactly one `auditing.check.error`
   * per raising check, with the repository id, the check's name and its module, in check
   * order. Notifications add only Slack delivery errors.
   */
  lemma {:induction false} RunOutcomeCheckErrors(t: Table, checks: seq<Check>, repo: Repository, path: string, now: int, env: NotifyEnv)
    ensures CheckErrorsOf(RunOutcome(t, checks, repo, path, now, env).log) == ErrorsLogged(checks, NewCheckContext(repo, path), repo.id)
  {
    RunAllCheckErrors(Progress(t, [], []), checks, NewCheckContext(repo, path), repo, now, env);
  }

  lemma {:induction false} SaveResultsAppend(t: Table, repoId: int, a: seq<CheckResult>, b: seq<CheckResult>, now: int)
    requires forall r :: r in a + b ==> r.isFound.Some?
    ensures SaveResults(t, repoId, a + b, now) == SaveResults(SaveResults(t, repoId, a, now), repoId, b, now)
    decreases |b|
  {
    if b == [] {
      assert a + b == a;
    } else {
      var n := |b| - 1;
      assert (a + b)[..|a + b| - 1] == a + b[..n];
      assert (a + b)[|a + b| - 1] == b[n];
      SaveResultsAppend(t, repoId, a, b[..n], now);
    }
  }

  lemma {:induction false} KeysOfAppend(a: seq<CheckResult>, b: seq<CheckResult>)
    ensures KeysOf(a + b) == KeysOf(a) + KeysOf(b)
  {
  }

  /** Consuming the checks one by one saves exactly what the runner outputs, in its order. */
  lemma {:induction false} RunAllSavesCollected(p: Progress, checks: seq<Check>, ctx: CheckContext, repo: Repository, now: int, env: NotifyEnv)
    ensures RunAll(p, checks, ctx, repo, now, env).table == SaveResults(p.table, repo.id, Collected(checks, ctx), now)
  {
    if checks != [] {
      var n := |checks| - 1;
      RunAllSavesCollected(p, checks[..n], ctx, repo, now, env);
      SaveResultsAppend(p.table, repo.id, Collected(checks[..n], ctx), Contribution(checks[n].run(ctx)), now);
    }
  }

  /**
   * Saving touches only the rows of the saved keys: every other row is unchanged, the
   * rows of the saved keys exist afterwards, and nothing else is added.
   */
  lemma {:induction false} SaveResultsFrame(t: Table, repoId: int, results: seq<CheckResult>, now: int)
    requires forall r :: r in results ==> r.isFound.Some?
    requires WellKeyed(t)
    ensures var t' := SaveResults(t, repoId, results, now);
      && WellKeyed(t')
      && (forall id :: id in t'.rows <==> id in t.rows || (id.0 == repoId && id.1 in KeysOf(results)))
      && (forall id :: id in t.rows && (id.0 != repoId || id.1 !in KeysOf(results)) ==> t'.rows[id] == t.rows[id])
  {
    if results != [] {
      var n := |results| - 1;
      assert forall r :: r in results[..n] ==> r in results;
      SaveResultsFrame(t, repoId, results[..n], now);
      var before := SaveResults(t, repoId, results[..n], now);
      assert KeysOf(results) == KeysOf(results[..n]) + {results[n].issueKey};
      SaveInEffect(before, (repoId, results[n].issueKey), results[n].isFound.value, results[n].details, now);
    }
  }

  /**
   * A run adds rows only for keys it produced; rows of other repositories are untouched;
   * a row of this repository whose key was not produced keeps its status and every
   * other field and ends up deleted.
   */
  lemma {:induction false} RunOutcomeFrame(t: Table, checks: seq<Check>, repo: Repository, path: string, now: int, env: NotifyEnv)
    requires WellKeyed(t)
    ensures var produced := KeysOf(Collected(checks, NewCheckContext(repo, path)));
      var t' := RunOutcome(t, checks, repo, path, now, env).table;
      && WellKeyed(t')
      && (forall id :: id in t'.rows <==> id in t.rows || (id.0 == repo.id && id.1 in produced))
      && (forall id :: id in t.rows && id.0 != repo.id ==> t'.rows[id] == t.rows[id])
      && (forall id :: id in t.rows && id.0 == repo.id && id.1 !in produced ==>
            t'.rows[id] == t.rows[id].(deleted := true))
  {
    var ctx := NewCheckContext(repo, path);
    RunAllSavesCollected(Progress(t, [], []), checks, ctx, repo, now, env);
    SaveResultsFrame(t, repo.id, Collected(checks, ctx), now);
  }

  /** The persisted Issue rows, updated in place by the runner. */
  class IssueStore {
    var rows: map<IssueId, Issue>
    var nextPk: nat

    ghost predicate Valid()
      reads this
    {
      WellKeyed(Table(rows, nextPk))
    }

    function State(): Table
      reads this
    {
      Table(rows, nextPk)
    }

    constructor ()
      ensures Valid() && rows == map[] && nextPk == 1
    {
      rows := map[];
      nextPk := 1;
    }

    /** `save_check_result(repository, issue_key, is_found, details)`: get-or-create, then update. */
    method SaveCheckResult(repo: Repository, issueKey: string, isFound: bool, details: Option<Details>, now: int)
      returns (issue: Issue, changed: bool)
      requires Valid()
      modifies this
      ensures Valid()
      ensures State() == SaveIn(old(State()), (repo.id, issueKey), isFound, details, now)
      ensures issue == rows[(repo.id, issueKey)]
      ensures changed <==> issue.status != PriorStatus(old(rows), (repo.id, issueKey))
    {
      var id := (repo.id, issueKey);
      ghost var before := State();
      var row: Issue;
      if id in rows {
        row := rows[id];
      } else {
        row := Issue(nextPk, repo.id, issueKey, NotFound, map[], now, false, "", None, None);
        rows := rows[id := row];
        nextPk := nextPk + 1;
      }
      var previous := row.status;
      issue := row.(status := DetermineIssueStatus(isFound, previous),
                    details := SavedDetails(isFound, details),
                    lastCheck := now);
      rows := rows[id := issue];
      changed := issue.status != previous;
      assert rows == before.rows[id := issue];
      SaveInEffect(before, id, isFound, details, now);
    }

    /** Saves one conclusive result and, if its status changed, calls `notify_status_change`. */
    method SaveAndNotifyResult(r: CheckResult, repo: Repository, now: int, env: NotifyEnv, sent0: seq<Message>, log0: seq<LogEvent>)
      returns (sent: seq<Message>, log: seq<LogEvent>)
      requires Valid() && r.isFound.Some?
      modifies this
      ensures Valid()
      ensures Progress(State(), sent, log) == SaveAndNotifyOne(Progress(old(State()), sent0, log0), repo, r, now, env)
    {
      sent, log := sent0, log0;
      var issue, changed := SaveCheckResult(repo, r.issueKey, r.isFound.value, r.details, now);
      if changed {
        var attempts, errors := NotifyStatusChange(issue, repo, env);
        sent := sent + attempts;
        log := log + errors;
      }
    }

    /** Saves the conclusive results of one check, in emission order. */
    method SaveCheckOutput(rs: seq<CheckResult>, repo: Repository, now: int, env: NotifyEnv, sent0: seq<Message>, log0: seq<LogEvent>)
      returns (sent: seq<Message>, log: seq<LogEvent>)
      requires Valid()
      modifies this
      ensures Valid()
      ensures Progress(State(), sent, log) == SaveAndNotify(Progress(old(State()), sent0, log0), repo, Conclusive(rs), now, env)
    {
      ghost var start := Progress(State(), sent0, log0);
      sent, log := sent0, log0;
      for j := 0 to |rs|
        invariant Valid()
        invariant Progress(State(), sent, log) == SaveAndNotify(start, repo, Conclusive(rs[..j]), now, env)
      {
        ghost var kept := Conclusive(rs[..j]);
        ghost var before := Progress(State(), sent, log);
        ConclusiveStep(rs, j);
        if rs[j].isFound.Some? {
          var r := rs[j];
          assert Conclusive(rs[..j + 1]) == kept + [r];
          SaveAndNotifySnoc(start, repo, kept, r, now, env);
          sent, log := SaveAndNotifyResult(r, repo, now, env, sent, log);
          assert Progress(State(), sent, log) == SaveAndNotifyOne(before, repo, r, now, env);
        } else {
          assert Conclusive(rs[..j + 1]) == kept;
        }
      }
      assert rs[..|rs|] == rs;
    }

    /**
     * `run_checks_and_save_results(checks, repository, path)`: consume the runner,
     * saving every result and notifying on a status change, then soft-delete the rows
     * of this repository that the run did not produce.
     */
    method RunChecksAndSaveResults(checks: seq<Check>, repo: Repository, path: string, now: int, env: NotifyEnv)
      returns (sent: seq<Message>, log: seq<LogEvent>)
      requires Valid()
      modifies this
      ensures Valid()
      ensures Progress(State(), sent, log) == RunOutcome(old(State()), checks, repo, path, now, env)
    {
      var ctx := NewCheckContext(repo, path);
      ghost var start := Progress(State(), [], []);
      var produced: set<string> := {};
      sent, log := [], [];
      for i := 0 to |checks|
        invariant Valid()
        invariant Progress(State(), sent, log) == RunAll(start, checks[..i], ctx, repo, now, env)
        invariant produced == KeysOf(Collected(checks[..i], ctx))
      {
        RunAllStep(start, checks, i, ctx, repo, now, env);
        var output := checks[i].run(ctx);
        match output
        case Raised =>
          log := log + [CheckError(repo.id, checks[i].name, checks[i].checkModule)];
        case Produced(rs) =>
          sent, log := SaveCheckOutput(rs, repo, now, env, sent, log);
          produced := produced + KeysOf(Conclusive(rs));
      }
      assert checks[..|checks|] == checks;
      rows := Swept(rows, repo.id, produced);
    }
  }
}
