/**
 * The audit pages: the overview (filters, the services list and issues grouped by
 * kind), the per-project report (active issues by category, deprecated issues), the
 * bulk "open git issues" request and the manual WONTFIX override.
 *
 * Database tables are read as sequences of rows in the database's order; the kind
 * registry is a total function from kind_key to its Kind.
 */
module AuditViews {
  import opened Wrappers
  import opened Strings
  import opened Auditing
  import opened Groups
  import opened Json

  /** A registered issue kind, as the pages display it. */
  datatype Kind = Kind(namespace: string, category: string, title: string, description: string, effort: string, severity: string)

  /** The kind registry: `issue.kind` for a given kind_key. */
  type Registry = string -> Kind

  // ---------------------------------------------------------------------------
  // Available and applied filters

  /** `{"name": .., "type": ..}`, one filter choice of the overview. */
  datatype Filter = Filter(name: string, filterType: string)

  /** `get_available_namespaces`: the namespace of every issue's kind. */
  function AvailableNamespaces(issues: seq<Issue>, kinds: Registry): (r: set<string>)
    ensures forall i :: i in issues ==> kinds(i.kindKey).namespace in r
    ensures forall n :: n in r ==> exists i :: i in issues && kinds(i.kindKey).namespace == n
  {
    set i | i in issues :: kinds(i.kindKey).namespace
  }

  /** `get_available_owners`: the owner of every service. */
  function AvailableOwners(services: seq<Service>): (r: set<string>)
    ensures forall s :: s in services ==> s.owner in r
    ensures forall o :: o in r ==> exists s :: s in services && s.owner == o
  {
    set s | s in services :: s.owner
  }

  /** `get_available_status`: the status of every service that has one; `None` is not offered. */
  function AvailableStatus(services: seq<Service>): (r: set<string>)
    ensures forall s :: s in services && s.status.Some? ==> s.status.value in r
    ensures forall st :: st in r ==> exists s :: s in services && s.status == Some(st)
  {
    set s | s in services && s.status.Some? :: s.status.value
  }

  /** `get_available_filters`: owners, namespaces and statuses, each tagged with its type. */
  function AvailableFilters(services: seq<Service>, issues: seq<Issue>, kinds: Registry): (r: set<Filter>)
    ensures forall f :: f in r ==> f.filterType in {"owner", "namespace", "status"}
  {
    (set o | o in AvailableOwners(services) :: Filter(o, "owner"))
    + (set n | n in AvailableNamespaces(issues, kinds) :: Filter(n, "namespace"))
    + (set st | st in AvailableStatus(services) :: Filter(st, "status"))
  }

  /** The names of the applied filters of one type. */
  function NamesOfType(applied: seq<Filter>, filterType: string): (r: set<string>)
    ensures forall f :: f in applied && f.filterType == filterType ==> f.name in r
    ensures forall n :: n in r ==> Filter(n, filterType) in applied
  {
    set f | f in applied && f.filterType == filterType :: f.name
  }

  /** The owner, namespace and status filter sets of a request. */
  datatype Partition = Partition(owners: set<string>, namespaces: set<string>, statuses: set<string>)

  /** `open_bulk_git_issues`: the applied filters split by their type; other types are ignored. */
  function PartitionFilters(applied: seq<Filter>): (p: Partition)
    ensures forall f :: f in applied && f.filterType == "owner" ==> f.name in p.owners
    ensures forall f :: f in applied && f.filterType == "namespace" ==> f.name in p.namespaces
    ensures forall f :: f in applied && f.filterType == "status" ==> f.name in p.statuses
    ensures forall n :: n in p.owners ==> Filter(n, "owner") in applied
    ensures forall n :: n in p.namespaces ==> Filter(n, "namespace") in applied
    ensures forall n :: n in p.statuses ==> Filter(n, "status") in applied
  {
    Partition(NamesOfType(applied, "owner"), NamesOfType(applied, "namespace"), NamesOfType(applied, "status"))
  }

  /** Each name of `names` tagged with `filterType`, in order. */
  function Tagged(names: seq<string>, filterType: string): (r: seq<Filter>)
    ensures |r| == |names|
    ensures forall i :: 0 <= i < |r| ==> r[i] == Filter(names[i], filterType)
  {
    seq(|names|, i requires 0 <= i < |names| => Filter(names[i], filterType))
  }

  /** The `applied_filters` list of the overview's JSON answer: owners, then namespaces, then statuses. */
  function AppliedFilters(owners: seq<string>, namespaces: seq<string>, statuses: seq<string>): (r: seq<Filter>)
    ensures |r| == |owners| + |namespaces| + |statuses|
  {
    Tagged(owners, "owner") + Tagged(namespaces, "namespace") + Tagged(statuses, "status")
  }

  lemma {:induction false} NamesOfTagged(names: seq<string>, all: seq<Filter>, filterType: string)
    requires forall f :: f in Tagged(names, filterType) ==> f in all
    requires forall f :: f in all && f.filterType == filterType ==> f in Tagged(names, filterType)
    ensures NamesOfType(all, filterType) == set n | n in names
  {
    var tagged := Tagged(names, filterType);
    forall n | n in names
      ensures n in NamesOfType(all, filterType)
    {
      var i :| 0 <= i < |names| && names[i] == n;
      assert tagged[i] in tagged;
    }
    forall n | n in NamesOfType(all, filterType)
      ensures n in names
    {
      assert Filter(n, filterType) in tagged;
      var i :| 0 <= i < |tagged| && tagged[i] == Filter(n, filterType);
    }
  }

  /** Partitioning the filters the overview reports as applied gives back the request's three lists as sets. */
  lemma {:induction false} PartitionOfApplied(owners: seq<string>, namespaces: seq<string>, statuses: seq<string>)
    ensures PartitionFilters(AppliedFilters(owners, namespaces, statuses))
      == Partition(set n | n in owners, set n | n in namespaces, set n | n in statuses)
  {
    var o, n, s := Tagged(owners, "owner"), Tagged(namespaces, "namespace"), Tagged(statuses, "status");
    var all := o + n + s;
    assert forall f :: f in all <==> f in o || f in n || f in s;
    NamesOfTagged(owners, all, "owner");
    NamesOfTagged(namespaces, all, "namespace");
    NamesOfTagged(statuses, all, "status");
  }

  /** The names of one type among listed filters, when the listed filters are a given set. */
  lemma {:induction false} NamesOfListed(listed: seq<Filter>, all: set<Filter>, names: set<string>, filterType: string)
    requires forall f :: f in listed <==> f in all
    requires forall n :: n in names ==> Filter(n, filterType) in all
    requires forall f :: f in all && f.filterType == filterType ==> f.name in names
    ensures NamesOfType(listed, filterType) == names
  {
    forall n | n in names
      ensures n in NamesOfType(listed, filterType)
    {
      assert Filter(n, filterType) in listed;
    }
  }

  /** Partitioning every available filter, listed in any order, recovers the three available sets. */
  lemma {:induction false} PartitionOfAvailable(services: seq<Service>, issues: seq<Issue>, kinds: Registry, listed: seq<Filter>)
    requires forall f :: f in listed <==> f in AvailableFilters(services, issues, kinds)
    ensures PartitionFilters(listed)
      == Partition(AvailableOwners(services), AvailableNamespaces(issues, kinds), AvailableStatus(services))
  {
    var all := AvailableFilters(services, issues, kinds);
    NamesOfListed(listed, all, AvailableOwners(services), "owner");
    NamesOfListed(listed, all, AvailableNamespaces(issues, kinds), "namespace");
    NamesOfListed(listed, all, AvailableStatus(services), "status");
  }

  // ---------------------------------------------------------------------------
  // The services list

  /** A service is listed when it has a repository and passes each non-empty filter. */
  predicate Selected(s: Service, owners: set<string>, statuses: set<string>) {
    && s.repoId.Some?
    && (owners == {} || s.owner in owners)
    && (statuses == {} || (s.status.Some? && s.status.value in statuses))
  }

  /** `get_services(owner_filters, status_filters)`: the selected services, in table order. */
  function GetServices(services: seq<Service>, owners: set<string>, statuses: set<string>): (r: seq<Service>)
    ensures |r| <= |services|
    ensures forall s :: s in r <==> s in services && Selected(s, owners, statuses)
  {
    if services == [] then []
    else
      var n := |services| - 1;
      assert services == services[..n] + [services[n]];
      GetServices(services[..n], owners, statuses) + (if Selected(services[n], owners, statuses) then [services[n]] else [])
  }

  /** The filter keeps table order: selecting from two runs of rows selects from each in turn. */
  lemma {:induction false} GetServicesAppend(a: seq<Service>, b: seq<Service>, owners: set<string>, statuses: set<string>)
    ensures GetServices(a + b, owners, statuses) == GetServices(a, owners, statuses) + GetServices(b, owners, statuses)
    decreases |b|
  {
    if b != [] {
      var n := |b| - 1;
      assert (a + b)[..|a| + n] == a + b[..n];
      GetServicesAppend(a, b[..n], owners, statuses);
    } else {
      assert a + b == a;
    }
  }

  // ---------------------------------------------------------------------------
  // Issues grouped by kind on the overview

  /** One entry of a kind's `services` list. */
  datatype ServiceIssue = ServiceIssue(serviceId: int, pk: nat, url: Option<string>, status: Status, kindKey: string, remoteId: Option<int>)

  /** The value stored under a kind_key: the kind's texts and the matching issues of every service. */
  datatype KindEntry = KindEntry(title: string, description: string, effort: string, severity: string, services: seq<ServiceIssue>)

  function EntryRow(s: Service, i: Issue): ServiceIssue {
    ServiceIssue(s.id, i.pk, i.remoteIssueUrl, i.status, i.kindKey, i.remoteIssueId)
  }

  /** `repository.issues.all()`: the rows of one repository, in table order. */
  function IssuesOf(issues: seq<Issue>, repoId: Option<int>): (r: seq<Issue>)
    ensures |r| <= |issues|
    ensures forall i :: i in r <==> i in issues && repoId == Some(i.repoId)
  {
    if issues == [] then []
    else
      var n := |issues| - 1;
      assert issues == issues[..n] + [issues[n]];
      IssuesOf(issues[..n], repoId) + (if repoId == Some(issues[n].repoId) then [issues[n]] else [])
  }

  /** The entries one service contributes: its issues whose namespace passes the filter, in order. */
  function Listing(s: Service, repoIssues: seq<Issue>, kinds: Registry, namespaces: set<string>): seq<ServiceIssue> {
    if repoIssues == [] then []
    else
      var n := |repoIssues| - 1;
      var i := repoIssues[n];
      Listing(s, repoIssues[..n], kinds, namespaces) + (if kinds(i.kindKey).namespace in namespaces then [EntryRow(s, i)] else [])
  }

  /** Every entry `get_issues` appends, in the order it appends them: service by service, issue by issue. */
  function Rows(selected: seq<Service>, issues: seq<Issue>, kinds: Registry, namespaces: set<string>): seq<ServiceIssue> {
    if selected == [] then []
    else
      var n := |selected| - 1;
      Rows(selected[..n], issues, kinds, namespaces) + Listing(selected[n], IssuesOf(issues, selected[n].repoId), kinds, namespaces)
  }

  /** One service's entries are exactly its issues that pass the namespace filter. */
  lemma {:induction false} ListingMembers(s: Service, repoIssues: seq<Issue>, kinds: Registry, namespaces: set<string>, x: ServiceIssue)
    ensures x in Listing(s, repoIssues, kinds, namespaces)
      <==> exists i :: i in repoIssues && kinds(i.kindKey).namespace in namespaces && x == EntryRow(s, i)
  {
    if repoIssues != [] {
      var n := |repoIssues| - 1;
      assert repoIssues == repoIssues[..n] + [repoIssues[n]];
      ListingMembers(s, repoIssues[..n], kinds, namespaces, x);
    }
  }

  /**
   * The overview lists an entry exactly for each pair of a listed service and an issue of
   * its repository whose namespace passes the filter.
   */
  lemma {:induction false} RowsMembers(selected: seq<Service>, issues: seq<Issue>, kinds: Registry, namespaces: set<string>, x: ServiceIssue)
    ensures x in Rows(selected, issues, kinds, namespaces) <==>
      exists s, i :: s in selected && i in issues && s.repoId == Some(i.repoId)
                     && kinds(i.kindKey).namespace in namespaces && x == EntryRow(s, i)
  {
    if selected != [] {
      var n := |selected| - 1;
      assert selected == selected[..n] + [selected[n]];
      RowsMembers(selected[..n], issues, kinds, namespaces, x);
      ListingMembers(selected[n], IssuesOf(issues, selected[n].repoId), kinds, namespaces, x);
    }
  }

  /** The kind_key of an entry. */
  function RowKind(x: ServiceIssue): string { x.kindKey }

  function EntryOf(kinds: Registry, rows: seq<ServiceIssue>, k: string): KindEntry {
    var kind := kinds(k);
    KindEntry(kind.title, kind.description, kind.effort, kind.severity, Members(rows, RowKind, k))
  }

  /** The items for a list of keys, in that order. */
  function EntriesFor(keys: seq<string>, kinds: Registry, rows: seq<ServiceIssue>): (r: seq<(string, KindEntry)>)
    ensures |r| == |keys|
    ensures forall j :: 0 <= j < |r| ==> r[j] == (keys[j], EntryOf(kinds, rows, keys[j]))
  {
    if keys == [] then []
    else EntriesFor(keys[..|keys| - 1], kinds, rows) + [(keys[|keys| - 1], EntryOf(kinds, rows, keys[|keys| - 1]))]
  }

  /** An empty namespace filter stands for every available namespace. */
  function NamespaceFilter(namespaces: set<string>, issues: seq<Issue>, kinds: Registry): set<string> {
    if namespaces == {} then AvailableNamespaces(issues, kinds) else namespaces
  }

  /** `get_issues(owner_filters, namespace_filters, status_filters)`: `OrderedDict(sorted(kinds.items()))`. */
  function Overview(services: seq<Service>, issues: seq<Issue>, kinds: Registry, p: Partition): seq<(string, KindEntry)> {
    var rows := Rows(GetServices(services, p.owners, p.statuses), issues, kinds, NamespaceFilter(p.namespaces, issues, kinds));
    EntriesFor(SortStrings(Distinct(Keys(rows, RowKind))), kinds, rows)
  }

  /** The keys of an ordered dict, in order. */
  function ItemKeys<V>(items: seq<(string, V)>): (r: seq<string>)
    ensures |r| == |items|
    ensures forall j :: 0 <= j < |items| ==> r[j] == items[j].0
  {
    seq(|items|, j requires 0 <= j < |items| => items[j].0)
  }

  /**
   * The overview is keyed by kind_key in sorted order, each key once; its keys are exactly
   * the kinds of the entries listed; and each key's `services` list holds that key's
   * entries in the order services and their issues were walked.
   */
  lemma {:induction false} OverviewIsGroupedByKind(services: seq<Service>, issues: seq<Issue>, kinds: Registry, p: Partition)
    ensures var rows := Rows(GetServices(services, p.owners, p.statuses), issues, kinds, NamespaceFilter(p.namespaces, issues, kinds));
      var r := Overview(services, issues, kinds, p);
      && SortedBy(ItemKeys(r), Identity)
      && NoDuplicates(ItemKeys(r))
      && (forall k :: k in ItemKeys(r) <==> exists x :: x in rows && x.kindKey == k)
      && (forall j :: 0 <= j < |r| ==> r[j].1.services == Members(rows, RowKind, r[j].0))
  {
    var rows := Rows(GetServices(services, p.owners, p.statuses), issues, kinds, NamespaceFilter(p.namespaces, issues, kinds));
    var keys := SortStrings(Distinct(Keys(rows, RowKind)));
    assert ItemKeys(EntriesFor(keys, kinds, rows)) == keys;
    SortedDistinct(Keys(rows, RowKind));
    forall k
      ensures k in keys <==> exists x :: x in rows && x.kindKey == k
    {
      KeysMembers(rows, RowKind, k);
    }
  }

  /** With no namespace filter, every issue of every listed service is listed. */
  lemma {:induction false} EmptyNamespaceFilterSkipsNothing(services: seq<Service>, issues: seq<Issue>, kinds: Registry, p: Partition, s: Service, i: Issue)
    requires p.namespaces == {}
    requires s in GetServices(services, p.owners, p.statuses) && i in issues && s.repoId == Some(i.repoId)
    ensures EntryRow(s, i) in Rows(GetServices(services, p.owners, p.statuses), issues, kinds, NamespaceFilter(p.namespaces, issues, kinds))
  {
    assert kinds(i.kindKey).namespace in AvailableNamespaces(issues, kinds);
    RowsMembers(GetServices(services, p.owners, p.statuses), issues, kinds, NamespaceFilter(p.namespaces, issues, kinds), EntryRow(s, i));
  }

  /** The dict `get_issues` builds, with its key order, holds one entry per kind_key of `rows`. */
  ghost predicate Grouping(entries: map<string, KindEntry>, order: seq<string>, kinds: Registry, rows: seq<ServiceIssue>) {
    && order == Distinct(Keys(rows, RowKind))
    && (forall k :: k in entries <==> k in order)
    && (forall k :: k in entries ==> entries[k] == EntryOf(kinds, rows, k))
  }

  /** The entry stored under `row`'s kind_key once `row` has been appended to `prior`. */
  function Updated(kinds: Registry, prior: seq<ServiceIssue>, row: ServiceIssue): KindEntry {
    var kind := kinds(row.kindKey);
    KindEntry(kind.title, kind.description, kind.effort, kind.severity, prior + [row])
  }

  lemma {:induction false} GroupingStep(entries: map<string, KindEntry>, order: seq<string>, kinds: Registry, rows: seq<ServiceIssue>, row: ServiceIssue)
    requires Grouping(entries, order, kinds, rows)
    ensures var k := row.kindKey;
      var prior := if k in entries then entries[k].services else [];
      Grouping(entries[k := Updated(kinds, prior, row)], if k in entries then order else order + [k], kinds, rows + [row])
  {
    KeysSnoc(rows, row, RowKind);
    EntriesStep(entries, order, kinds, rows, row);
  }

  lemma {:induction false} EntriesStep(entries: map<string, KindEntry>, order: seq<string>, kinds: Registry, rows: seq<ServiceIssue>, row: ServiceIssue)
    requires Grouping(entries, order, kinds, rows)
    ensures var k := row.kindKey;
      var prior := if k in entries then entries[k].services else [];
      var updated := entries[k := Updated(kinds, prior, row)];
      forall key :: key in updated ==> updated[key] == EntryOf(kinds, rows + [row], key)
  {
    var k := row.kindKey;
    var prior := if k in entries then entries[k].services else [];
    var updated := entries[k := Updated(kinds, prior, row)];
    if k !in entries {
      UnseenKeyHasNoMembers(rows, RowKind, k);
    }
    forall key | key in updated
      ensures updated[key] == EntryOf(kinds, rows + [row], key)
    {
      MembersSnoc(rows, row, RowKind, key);
    }
  }

  /** `kinds[issue.kind_key][..] = ..` and `kinds[issue.kind_key]["services"].append(..)` for one entry. */
  method AddEntry(row: ServiceIssue, kinds: Registry, entries0: map<string, KindEntry>, order0: seq<string>, ghost rows0: seq<ServiceIssue>)
    returns (entries: map<string, KindEntry>, order: seq<string>, ghost rows: seq<ServiceIssue>)
    requires Grouping(entries0, order0, kinds, rows0)
    ensures rows == rows0 + [row]
    ensures Grouping(entries, order, kinds, rows)
  {
    var k := row.kindKey;
    var prior: seq<ServiceIssue> := [];
    order := order0;
    if k in entries0 {
      prior := entries0[k].services;
    } else {
      order := order + [k];
    }
    entries := entries0[k := Updated(kinds, prior, row)];
    GroupingStep(entries0, order0, kinds, rows0, row);
    rows := rows0 + [row];
  }

  /** The inner loop of `get_issues` over one service's issues. */
  method AddService(service: Service, repoIssues: seq<Issue>, kinds: Registry, namespaces: set<string>,
                    entries0: map<string, KindEntry>, order0: seq<string>, ghost rows0: seq<ServiceIssue>)
    returns (entries: map<string, KindEntry>, order: seq<string>, ghost rows: seq<ServiceIssue>)
    requires Grouping(entries0, order0, kinds, rows0)
    ensures rows == rows0 + Listing(service, repoIssues, kinds, namespaces)
    ensures Grouping(entries, order, kinds, rows)
  {
    entries, order, rows := entries0, order0, rows0;
    for j := 0 to |repoIssues|
      invariant rows == rows0 + Listing(service, repoIssues[..j], kinds, namespaces)
      invariant Grouping(entries, order, kinds, rows)
    {
      var issue := repoIssues[j];
      ghost var listed := Listing(service, repoIssues[..j], kinds, namespaces);
      assert Listing(service, repoIssues[..j + 1], kinds, namespaces)
        == listed + (if kinds(issue.kindKey).namespace in namespaces then [EntryRow(service, issue)] else []) by {
        assert repoIssues[..j + 1][..j] == repoIssues[..j];
      }
      if kinds(issue.kindKey).namespace in namespaces {
        assert rows0 + (listed + [EntryRow(service, issue)]) == rows + [EntryRow(service, issue)];
        entries, order, rows := AddEntry(EntryRow(service, issue), kinds, entries, order, rows);
      }
    }
    assert repoIssues[..|repoIssues|] == repoIssues;
  }

  /** `items` holds the entries of `keys`, in that order. */
  ghost predicate SortedEntries(items: seq<(string, KindEntry)>, entries: map<string, KindEntry>, keys: seq<string>) {
    && ItemKeys(items) == keys
    && forall j :: 0 <= j < |items| ==> items[j].0 in entries && items[j].1 == entries[items[j].0]
  }

  /** Appending the next key's entry extends the sorted entries by that key. */
  lemma {:induction false} SortedEntriesSnoc(items: seq<(string, KindEntry)>, entries: map<string, KindEntry>, keys: seq<string>, k: string)
    requires SortedEntries(items, entries, keys) && k in entries
    ensures SortedEntries(items + [(k, entries[k])], entries, keys + [k])
  {
    assert ItemKeys(items + [(k, entries[k])]) == keys + [k];
  }

  /** The loop of `OrderedDict(sorted(kinds.items()))` once the keys are sorted: each key with its entry. */
  method SortedItems(entries: map<string, KindEntry>, keys: seq<string>) returns (r: seq<(string, KindEntry)>)
    requires forall k :: k in keys ==> k in entries
    ensures SortedEntries(r, entries, keys)
  {
    r := [];
    for j := 0 to |keys|
      invariant SortedEntries(r, entries, keys[..j])
    {
      var k := keys[j];
      assert keys[..j + 1] == keys[..j] + [k];
      SortedEntriesSnoc(r, entries, keys[..j], k);
      r := r + [(k, entries[k])];
    }
    assert keys[..|keys|] == keys;
  }

  /** Sorting the dict `get_issues` filled gives the entries of its sorted keys. */
  lemma {:induction false} SortedEntriesAreEntriesFor(entries: map<string, KindEntry>, order: seq<string>, kinds: Registry, rows: seq<ServiceIssue>, items: seq<(string, KindEntry)>)
    requires Grouping(entries, order, kinds, rows)
    requires SortedEntries(items, entries, SortStrings(order))
    ensures items == EntriesFor(SortStrings(order), kinds, rows)
  {
    var keys := SortStrings(order);
    var expected := EntriesFor(keys, kinds, rows);
    forall j | 0 <= j < |items|
      ensures items[j] == expected[j]
    {
      assert items[j].0 == keys[j];
    }
  }

  /** The outer loop of `get_issues` over the selected services. */
  method AddServices(selected: seq<Service>, issues: seq<Issue>, kinds: Registry, namespaces: set<string>)
    returns (entries: map<string, KindEntry>, order: seq<string>, ghost rows: seq<ServiceIssue>)
    ensures rows == Rows(selected, issues, kinds, namespaces)
    ensures Grouping(entries, order, kinds, rows)
  {
    entries, order, rows := map[], [], [];
    for i := 0 to |selected|
      invariant rows == Rows(selected[..i], issues, kinds, namespaces)
      invariant Grouping(entries, order, kinds, rows)
    {
      assert selected[..i + 1][..i] == selected[..i];
      entries, order, rows := AddService(selected[i], IssuesOf(issues, selected[i].repoId), kinds, namespaces, entries, order, rows);
    }
    assert selected[..|selected|] == selected;
  }

  /**
   * `get_issues`: walk the selected services and each one's issues, skip issues outside
   * the namespace filter, append an entry under the issue's kind_key; then sort by key.
   */
  method GetIssues(services: seq<Service>, issues: seq<Issue>, kinds: Registry, p: Partition) returns (r: seq<(string, KindEntry)>)
    ensures r == Overview(services, issues, kinds, p)
  {
    var namespaces := p.namespaces;
    if namespaces == {} {
      namespaces := AvailableNamespaces(issues, kinds);
    }
    var entries, order, rows := AddServices(GetServices(services, p.owners, p.statuses), issues, kinds, namespaces);
    var keys := SortStrings(order);
    forall k | k in keys
      ensures k in entries
    {
      assert k in multiset(keys);
    }
    r := SortedItems(entries, keys);
    SortedEntriesAreEntriesFor(entries, order, kinds, rows, r);
  }

  // ---------------------------------------------------------------------------
  // The bulk "open git issues" request

  /** The overview page a bulk request redirects back to. */
  datatype Route = AuditOverviewRoute | OwnedAuditOverviewRoute(owner: string)

  /** `audit_overview`, or `owned_audit_overview` for the owner the request names. */
  function RedirectFor(owner: Option<string>): (r: Route)
    ensures owner.None? <==> r == AuditOverviewRoute
    ensures owner.Some? ==> r == OwnedAuditOverviewRoute(owner.value)
  {
    match owner
    case None => AuditOverviewRoute
    case Some(o) => OwnedAuditOverviewRoute(o)
  }

  /** One `(pk, user_name, redirect_uri)` tuple handed to the bulk task. */
  datatype BulkTask = BulkTask(pk: int, user: string, redirect: Route)

  /** The argument of `bulk_create_git_issues`: one tuple per requested pk, in request order. */
  function BulkTasks(pks: seq<int>, user: string, redirect: Route): (r: seq<BulkTask>)
    ensures |r| == |pks|
    ensures forall i :: 0 <= i < |r| ==> r[i] == BulkTask(pks[i], user, redirect)
  {
    if pks == [] then [] else BulkTasks(pks[..|pks| - 1], user, redirect) + [BulkTask(pks[|pks| - 1], user, redirect)]
  }

  /** The JSON body of `open_bulk_git_issues`: the pks, the optional owner and the applied filters. */
  datatype BulkRequest = BulkRequest(pks: seq<int>, owner: Option<string>, applied: seq<Filter>)

  /** `{"id": .., "name": .., "owner": ..}` for one listed service. */
  datatype ServiceSummary = ServiceSummary(id: int, name: string, owner: string)

  function Summaries(services: seq<Service>): (r: seq<ServiceSummary>)
    ensures |r| == |services|
    ensures forall i :: 0 <= i < |r| ==> r[i] == ServiceSummary(services[i].id, services[i].name, services[i].owner)
  {
    seq(|services|, i requires 0 <= i < |services| => ServiceSummary(services[i].id, services[i].name, services[i].owner))
  }

  /**
   * `open_bulk_git_issues`: queue one task per pk, then answer with the services and the
   * overview for the applied filters, partitioned by type.
   */
  method OpenBulkGitIssues(req: BulkRequest, user: string, services: seq<Service>, issues: seq<Issue>, kinds: Registry)
    returns (tasks: seq<BulkTask>, listed: seq<ServiceSummary>, overview: seq<(string, KindEntry)>)
    ensures tasks == BulkTasks(req.pks, user, RedirectFor(req.owner))
    ensures listed == Summaries(GetServices(services, PartitionFilters(req.applied).owners, PartitionFilters(req.applied).statuses))
    ensures overview == Overview(services, issues, kinds, PartitionFilters(req.applied))
  {
    var redirect := RedirectFor(req.owner);
    tasks := [];
    for i := 0 to |req.pks|
      invariant tasks == BulkTasks(req.pks[..i], user, redirect)
    {
      assert req.pks[..i + 1][..i] == req.pks[..i];
      tasks := tasks + [BulkTask(req.pks[i], user, redirect)];
    }
    assert req.pks[..|req.pks|] == req.pks;
    var p := PartitionFilters(req.applied);
    listed := Summaries(GetServices(services, p.owners, p.statuses));
    overview := GetIssues(services, issues, kinds, p);
  }

  // ---------------------------------------------------------------------------
  // The project report

  /** The Service or Library fields the report reads. */
  datatype Project = Project(ownerSlug: string, nameSlug: string, repoId: Option<int>)

  /** The two project tables of `AuditReport.models`. */
  datatype Catalog = Catalog(services: seq<Project>, libraries: seq<Project>)

  /** How a view ends without its page: `Http404` or an uncaught exception. */
  datatype ViewError = Http404(message: string) | ServerError(exception: string)

  /** The template context: the project, its type, and the issues by category in display order. */
  datatype ReportContext = ReportContext(project: Project, projectType: string, issues: seq<(string, seq<Issue>)>)

  const DeprecatedIssues := "Deprecated Issues"

  /** `self.models.get(project_type)`: the model's class name and table, or `None`. */
  function ProjectModel(catalog: Catalog, projectType: string): (r: Option<(string, seq<Project>)>)
    ensures r.Some? <==> projectType == "services" || projectType == "libraries"
    ensures projectType == "services" ==> r == Some(("Service", catalog.services))
    ensures projectType == "libraries" ==> r == Some(("Library", catalog.libraries))
  {
    if projectType == "services" then Some(("Service", catalog.services))
    else if projectType == "libraries" then Some(("Library", catalog.libraries))
    else None
  }

  /** The rows with the given slug pair, in table order. */
  function WithSlugs(projects: seq<Project>, ownerSlug: string, nameSlug: string): (r: seq<Project>)
    ensures forall x :: x in r <==> x in projects && x.ownerSlug == ownerSlug && x.nameSlug == nameSlug
  {
    if projects == [] then []
    else
      var n := |projects| - 1;
      assert projects == projects[..n] + [projects[n]];
      WithSlugs(projects[..n], ownerSlug, nameSlug)
        + (if projects[n].ownerSlug == ownerSlug && projects[n].nameSlug == nameSlug then [projects[n]] else [])
  }

  /**
   * `.get(owner_slug=.., name_slug=..)`: the one matching row; `DoesNotExist`, which the view
   * turns into a 404, when there is none; `MultipleObjectsReturned`, which it does not catch,
   * when there are several.
   */
  function GetProject(className: string, projects: seq<Project>, ownerSlug: string, nameSlug: string): (r: Result<Project, ViewError>)
    ensures r.Success? ==> r.value in projects && r.value.ownerSlug == ownerSlug && r.value.nameSlug == nameSlug
    ensures (forall x :: x in projects ==> x.ownerSlug != ownerSlug || x.nameSlug != nameSlug)
      <==> r == Failure(Http404(className + ".DoesNotExist"))
    ensures |WithSlugs(projects, ownerSlug, nameSlug)| == 1 ==> r == Success(WithSlugs(projects, ownerSlug, nameSlug)[0])
    ensures |WithSlugs(projects, ownerSlug, nameSlug)| > 1 <==> r == Failure(ServerError(className + ".MultipleObjectsReturned"))
  {
    var matches := WithSlugs(projects, ownerSlug, nameSlug);
    if |matches| == 0 then Failure(Http404(className + ".DoesNotExist"))
    else if |matches| > 1 then
      assert matches[0] in matches;
      Failure(ServerError(className + ".MultipleObjectsReturned"))
    else
      assert matches[0] in matches;
      Success(matches[0])
  }

  /** The statuses the report leaves out. */
  predicate Listed(i: Issue) {
    !i.deleted && i.status != Fixed && i.status != NotFound && i.status != Wontfix
  }

  /** `issues.filter(deleted=False).exclude(status__in=[FIXED, NOT_FOUND, WONTFIX])`, in table order. */
  function ActiveIssues(issues: seq<Issue>): (r: seq<Issue>)
    ensures forall i :: i in r <==> i in issues && Listed(i)
  {
    if issues == [] then []
    else
      var n := |issues| - 1;
      assert issues == issues[..n] + [issues[n]];
      ActiveIssues(issues[..n]) + (if Listed(issues[n]) then [issues[n]] else [])
  }

  /** `issues.filter(deleted=True)`, in table order. */
  function DeletedIssues(issues: seq<Issue>): (r: seq<Issue>)
    ensures forall i :: i in r <==> i in issues && i.deleted
  {
    if issues == [] then []
    else
      var n := |issues| - 1;
      assert issues == issues[..n] + [issues[n]];
      DeletedIssues(issues[..n]) + (if issues[n].deleted then [issues[n]] else [])
  }

  /** `issue.kind.category`, the report's grouping key. */
  function CategoryOf(kinds: Registry): Issue -> string {
    (i: Issue) => kinds(i.kindKey).category
  }

  /** The key `sorted(value, key=lambda x: x.kind_key)` uses. */
  function KindKey(i: Issue): string { i.kindKey }

  /** `[(k, f(k)) for k in keys]`: an ordered dict built from its keys. */
  function Pairs<V>(keys: seq<string>, f: string -> V): (r: seq<(string, V)>)
    ensures |r| == |keys|
    ensures forall j :: 0 <= j < |r| ==> r[j] == (keys[j], f(keys[j]))
  {
    if keys == [] then []
    else
      var n := |keys| - 1;
      Pairs(keys[..n], f) + [(keys[n], f(keys[n]))]
  }

  /** One category's active issues, sorted by kind_key. */
  function Group(active: seq<Issue>, kinds: Registry, category: string): seq<Issue> {
    SortBy(Members(active, CategoryOf(kinds), category), KindKey)
  }

  /** The ordered dict built from a list of categories: each with its issues sorted by kind_key. */
  function CategoryGroups(categories: seq<string>, active: seq<Issue>, kinds: Registry): seq<(string, seq<Issue>)> {
    Pairs(categories, c => Group(active, kinds, c))
  }

  /** The keys of an item followed by more items. */
  lemma {:induction false} ItemKeysCons<V>(x: (string, V), items: seq<(string, V)>)
    ensures ItemKeys([x] + items) == [x.0] + ItemKeys(items)
  {
    assert forall j :: 0 < j <= |items| ==> ([x] + items)[j] == items[j - 1];
  }

  /**
   * `OrderedDict.__setitem__`: replaces the value of an existing key in place, else
   * appends; either way the key order is kept and the new pair is present, and an
   * existing key's replacement leaves every other pair where and as it was.
   */
  function SetItem<V>(items: seq<(string, V)>, k: string, v: V): (r: seq<(string, V)>)
    ensures ItemKeys(r) == if k in ItemKeys(items) then ItemKeys(items) else ItemKeys(items) + [k]
    ensures k !in ItemKeys(items) ==> r == items + [(k, v)]
    ensures (k, v) in r
    ensures NoDuplicates(ItemKeys(items)) && k in ItemKeys(items) ==>
      && |r| == |items|
      && forall j :: 0 <= j < |r| ==> r[j] == (if items[j].0 == k then (k, v) else items[j])
  {
    if items == [] then [(k, v)]
    else if items[0].0 == k then
      SetItemHit(items, k, v);
      [(k, v)] + items[1..]
    else
      var rest := SetItem(items[1..], k, v);
      SetItemMiss(items, k, v, rest);
      [items[0]] + rest
  }

  /** The postcondition of `SetItem`, for its proof by cases. */
  ghost predicate Replaced<V>(items: seq<(string, V)>, k: string, v: V, r: seq<(string, V)>) {
    && ItemKeys(r) == (if k in ItemKeys(items) then ItemKeys(items) else ItemKeys(items) + [k])
    && (k !in ItemKeys(items) ==> r == items + [(k, v)])
    && (k, v) in r
    && (NoDuplicates(ItemKeys(items)) && k in ItemKeys(items) ==>
          && |r| == |items|
          && forall j :: 0 <= j < |r| ==> r[j] == (if items[j].0 == k then (k, v) else items[j]))
  }

  /** The first key is `k`: its value is replaced and, without duplicates, nothing else changes. */
  lemma {:induction false} SetItemHit<V>(items: seq<(string, V)>, k: string, v: V)
    requires items != [] && items[0].0 == k
    ensures Replaced(items, k, v, [(k, v)] + items[1..])
  {
    assert items == [items[0]] + items[1..];
    ItemKeysCons(items[0], items[1..]);
    ItemKeysCons((k, v), items[1..]);
    NoDuplicatesTail(items);
    if NoDuplicates(ItemKeys(items)) {
      forall j | 0 < j < |items|
        ensures items[j].0 != k
      {
        assert ItemKeys(items[1..])[j - 1] == items[j].0;
      }
    }
  }

  /** The first key is another one: it stays in front of the rest with `k` set. */
  lemma {:induction false} SetItemMiss<V>(items: seq<(string, V)>, k: string, v: V, rest: seq<(string, V)>)
    requires items != [] && items[0].0 != k
    requires Replaced(items[1..], k, v, rest)
    ensures Replaced(items, k, v, [items[0]] + rest)
  {
    SetItemMissKeys(items, k, v, rest);
    SetItemMissValues(items, k, v, rest);
  }

  /** The keys, the appended pair and the presence of `(k, v)` when the first key is another one. */
  lemma {:induction false} SetItemMissKeys<V>(items: seq<(string, V)>, k: string, v: V, rest: seq<(string, V)>)
    requires items != [] && items[0].0 != k
    requires ItemKeys(rest) == if k in ItemKeys(items[1..]) then ItemKeys(items[1..]) else ItemKeys(items[1..]) + [k]
    requires k !in ItemKeys(items[1..]) ==> rest == items[1..] + [(k, v)]
    requires (k, v) in rest
    ensures var r := [items[0]] + rest;
      && ItemKeys(r) == (if k in ItemKeys(items) then ItemKeys(items) else ItemKeys(items) + [k])
      && (k !in ItemKeys(items) ==> r == items + [(k, v)])
      && (k, v) in r
  {
    var t, r, h := items[1..], [items[0]] + rest, items[0].0;
    assert items == [items[0]] + t;
    ItemKeysCons(items[0], t);
    ItemKeysCons(items[0], rest);
    assert k in ItemKeys(items) <==> k in ItemKeys(t);
    if k !in ItemKeys(t) {
      assert ItemKeys(r) == ItemKeys(items) + [k] by {
        assert [h] + (ItemKeys(t) + [k]) == ([h] + ItemKeys(t)) + [k];
      }
      assert r == items + [(k, v)] by {
        assert [items[0]] + (t + [(k, v)]) == ([items[0]] + t) + [(k, v)];
      }
    }
  }

  /** Without duplicates, only the pair with key `k` changes when the first key is another one. */
  lemma {:induction false} SetItemMissValues<V>(items: seq<(string, V)>, k: string, v: V, rest: seq<(string, V)>)
    requires items != [] && items[0].0 != k
    requires NoDuplicates(ItemKeys(items[1..])) && k in ItemKeys(items[1..]) ==>
      && |rest| == |items[1..]|
      && forall j :: 0 <= j < |rest| ==> rest[j] == (if items[1..][j].0 == k then (k, v) else items[1..][j])
    ensures var r := [items[0]] + rest;
      NoDuplicates(ItemKeys(items)) && k in ItemKeys(items) ==>
        && |r| == |items|
        && forall j :: 0 <= j < |r| ==> r[j] == (if items[j].0 == k then (k, v) else items[j])
  {
    var t, r := items[1..], [items[0]] + rest;
    if NoDuplicates(ItemKeys(items)) && k in ItemKeys(items) {
      assert NoDuplicates(ItemKeys(t)) && k in ItemKeys(t) by {
        assert items == [items[0]] + t;
        ItemKeysCons(items[0], t);
        NoDuplicatesTail(items);
      }
      forall j | 0 < j < |r|
        ensures r[j] == (if items[j].0 == k then (k, v) else items[j])
      {
        assert r[j] == rest[j - 1] && t[j - 1] == items[j];
      }
    }
  }

  /** Without duplicate keys, the first key does not recur and the rest has no duplicates either. */
  lemma {:induction false} NoDuplicatesTail<V>(items: seq<(string, V)>)
    requires items != []
    ensures NoDuplicates(ItemKeys(items)) ==>
      NoDuplicates(ItemKeys(items[1..])) && items[0].0 !in ItemKeys(items[1..])
  {
    assert items == [items[0]] + items[1..];
    ItemKeysCons(items[0], items[1..]);
    var ks := ItemKeys(items[1..]);
    assert multiset(ItemKeys(items)) == multiset{items[0].0} + multiset(ks);
    if NoDuplicates(ItemKeys(items)) {
      assert items[0].0 in multiset(ItemKeys(items));
      forall x | x in multiset(ks)
        ensures multiset(ks)[x] == 1
      {
        assert x in multiset(ItemKeys(items));
      }
    }
  }

  /** The active issues of the repository, by sorted category, each category sorted by kind_key. */
  function ActiveGroups(repoIssues: seq<Issue>, kinds: Registry): seq<(string, seq<Issue>)> {
    var active := ActiveIssues(repoIssues);
    CategoryGroups(SortStrings(Distinct(Keys(active, CategoryOf(kinds)))), active, kinds)
  }

  /**
   * `context["issues"]` for a found project: the active-issue groups, then the deleted
   * issues under "Deprecated Issues" when there are any. A project without a repository
   * has neither.
   */
  function ReportIssues(project: Project, issues: seq<Issue>, kinds: Registry): seq<(string, seq<Issue>)> {
    var repoIssues := IssuesOf(issues, project.repoId);
    var groups := ActiveGroups(repoIssues, kinds);
    var deleted := DeletedIssues(repoIssues);
    if deleted == [] then groups else SetItem(groups, DeprecatedIssues, deleted)
  }

  /** `AuditReport.get_context_data`, with the missing repository guarded at the deleted-issues query too. */
  function Report(catalog: Catalog, projectType: string, ownerSlug: string, nameSlug: string, issues: seq<Issue>, kinds: Registry)
    : Result<ReportContext, ViewError>
  {
    match ProjectModel(catalog, projectType)
    case None => Failure(Http404("Project.DoesNotExist"))
    case Some(model) =>
      match GetProject(model.0, model.1, ownerSlug, nameSlug)
      case Failure(e) => Failure(e)
      case Success(project) => Success(ReportContext(project, projectType, ReportIssues(project, issues, kinds)))
  }

  /**
   * `AuditReport.get_context_data` as written: the deleted-issues query dereferences
   * `project.repository` without the guard the active-issue loop has, so a project with no
   * repository raises `AttributeError`.
   */
  function ReportAsWritten(catalog: Catalog, projectType: string, ownerSlug: string, nameSlug: string, issues: seq<Issue>, kinds: Registry)
    : (r: Result<ReportContext, ViewError>)
    ensures r.Success? ==> r.value.project.repoId.Some?
  {
    match ProjectModel(catalog, projectType)
    case None => Failure(Http404("Project.DoesNotExist"))
    case Some(model) =>
      match GetProject(model.0, model.1, ownerSlug, nameSlug)
      case Failure(e) => Failure(e)
      case Success(project) =>
        if project.repoId.None? then Failure(ServerError("AttributeError"))
        else Success(ReportContext(project, projectType, ReportIssues(project, issues, kinds)))
  }

  /** The 404 cases: an unknown project type, and a slug pair no row of the model's table has. */
  lemma {:induction false} ReportNotFound(catalog: Catalog, projectType: string, ownerSlug: string, nameSlug: string, issues: seq<Issue>, kinds: Registry)
    ensures projectType != "services" && projectType != "libraries" ==>
      Report(catalog, projectType, ownerSlug, nameSlug, issues, kinds) == Failure(Http404("Project.DoesNotExist"))
    ensures projectType == "services" && (forall x :: x in catalog.services ==> x.ownerSlug != ownerSlug || x.nameSlug != nameSlug) ==>
      Report(catalog, projectType, ownerSlug, nameSlug, issues, kinds) == Failure(Http404("Service.DoesNotExist"))
    ensures projectType == "libraries" && (forall x :: x in catalog.libraries ==> x.ownerSlug != ownerSlug || x.nameSlug != nameSlug) ==>
      Report(catalog, projectType, ownerSlug, nameSlug, issues, kinds) == Failure(Http404("Library.DoesNotExist"))
  {
    assert "Service" + ".DoesNotExist" == "Service.DoesNotExist";
    assert "Library" + ".DoesNotExist" == "Library.DoesNotExist";
  }

  /** Each category group holds exactly the repository's active issues of that category. */
  lemma {:induction false} ActiveGroupMembers(repoIssues: seq<Issue>, kinds: Registry)
    ensures var groups := ActiveGroups(repoIssues, kinds);
      forall j, i :: 0 <= j < |groups| ==> (i in groups[j].1 <==> i in repoIssues && Listed(i) && kinds(i.kindKey).category == groups[j].0)
  {
    var active := ActiveIssues(repoIssues);
    var cats := SortStrings(Distinct(Keys(active, CategoryOf(kinds))));
    var groups := ActiveGroups(repoIssues, kinds);
    assert groups == CategoryGroups(cats, active, kinds);
    forall j, i | 0 <= j < |groups|
      ensures i in groups[j].1 <==> i in repoIssues && Listed(i) && kinds(i.kindKey).category == groups[j].0
    {
      assert groups[j] == (cats[j], Group(active, kinds, cats[j]));
      SortedMembers(active, kinds, cats[j], i);
    }
  }

  /** Each category group is sorted by kind_key and is a permutation of that category's active issues. */
  lemma {:induction false} ActiveGroupsSorted(repoIssues: seq<Issue>, kinds: Registry)
    ensures var groups := ActiveGroups(repoIssues, kinds);
      && (forall j :: 0 <= j < |groups| ==> SortedBy(groups[j].1, KindKey))
      && (forall j :: 0 <= j < |groups| ==> multiset(groups[j].1) == multiset(Members(ActiveIssues(repoIssues), CategoryOf(kinds), groups[j].0)))
  {
    var active := ActiveIssues(repoIssues);
  }

  /** The categories of the report: sorted, each once, and one for every active issue. */
  lemma {:induction false} ActiveCategoriesSorted(repoIssues: seq<Issue>, kinds: Registry)
    ensures var groups := ActiveGroups(repoIssues, kinds);
      && SortedBy(ItemKeys(groups), Identity)
      && NoDuplicates(ItemKeys(groups))
      && (forall i :: i in repoIssues && Listed(i) ==> kinds(i.kindKey).category in ItemKeys(groups))
  {
    var active := ActiveIssues(repoIssues);
    var cats := SortStrings(Distinct(Keys(active, CategoryOf(kinds))));
    assert ItemKeys(CategoryGroups(cats, active, kinds)) == cats;
    SortedDistinct(Keys(active, CategoryOf(kinds)));
    forall i | i in repoIssues && Listed(i)
      ensures kinds(i.kindKey).category in cats
    {
      KeysMembers(active, CategoryOf(kinds), kinds(i.kindKey).category);
    }
  }

  /** Sorting a category's issues by kind_key neither adds nor drops any. */
  lemma {:induction false} SortedMembers(active: seq<Issue>, kinds: Registry, c: string, i: Issue)
    ensures i in SortBy(Members(active, CategoryOf(kinds), c), KindKey) <==> i in active && kinds(i.kindKey).category == c
  {
    var m := Members(active, CategoryOf(kinds), c);
    assert i in SortBy(m, KindKey) <==> i in multiset(SortBy(m, KindKey));
    assert i in m <==> i in multiset(m);
  }

  /**
   * "Deprecated Issues" comes after the category groups exactly when the repository has
   * deleted issues; it holds those issues in table order. (If a kind's own category were
   * named "Deprecated Issues", the deleted issues would replace that group in place.)
   */
  lemma {:induction false} DeprecatedBucketIsLast(project: Project, issues: seq<Issue>, kinds: Registry)
    ensures var repoIssues := IssuesOf(issues, project.repoId);
      var groups := ActiveGroups(repoIssues, kinds);
      var deleted := DeletedIssues(repoIssues);
      && (deleted == [] ==> ReportIssues(project, issues, kinds) == groups)
      && (deleted != [] && DeprecatedIssues !in ItemKeys(groups) ==>
            ReportIssues(project, issues, kinds) == groups + [(DeprecatedIssues, deleted)])
      && (deleted != [] && DeprecatedIssues in ItemKeys(groups) ==>
            && ItemKeys(ReportIssues(project, issues, kinds)) == ItemKeys(groups)
            && (DeprecatedIssues, deleted) in ReportIssues(project, issues, kinds))
      && (forall i :: i in deleted <==> i in issues && Some(i.repoId) == project.repoId && i.deleted)
  {
  }

  /** A category named "Deprecated Issues" has its group replaced by the deleted issues, in place. */
  lemma {:induction false} DeprecatedGroupReplacedInPlace(project: Project, issues: seq<Issue>, kinds: Registry)
    ensures var repoIssues := IssuesOf(issues, project.repoId);
      var groups := ActiveGroups(repoIssues, kinds);
      var deleted := DeletedIssues(repoIssues);
      deleted != [] && DeprecatedIssues in ItemKeys(groups) ==>
        && |ReportIssues(project, issues, kinds)| == |groups|
        && forall j :: 0 <= j < |groups| ==>
             ReportIssues(project, issues, kinds)[j] == (if groups[j].0 == DeprecatedIssues then (DeprecatedIssues, deleted) else groups[j])
  {
    var repoIssues := IssuesOf(issues, project.repoId);
    ActiveCategoriesSorted(repoIssues, kinds);
  }

  /** A counterexample to the unguarded query: a service with no repository crashes the report as written. */
  lemma {:induction false} RepositoryLessReportCrashes(kinds: Registry)
    ensures var project := Project("acme", "shop", None);
      var catalog := Catalog([project], []);
      && ReportAsWritten(catalog, "services", "acme", "shop", [], kinds) == Failure(ServerError("AttributeError"))
      && Report(catalog, "services", "acme", "shop", [], kinds) == Success(ReportContext(project, "services", []))
  {
    var project := Project("acme", "shop", None);
    assert WithSlugs([project], "acme", "shop") == [project];
    assert ActiveIssues([]) == [];
  }

  /** With the guard, a project without a repository renders an empty report; with a repository both versions agree. */
  lemma {:induction false} GuardedReport(catalog: Catalog, projectType: string, ownerSlug: string, nameSlug: string, issues: seq<Issue>, kinds: Registry)
    ensures var r := Report(catalog, projectType, ownerSlug, nameSlug, issues, kinds);
      && (r.Success? && r.value.project.repoId.None? ==> r.value.issues == [])
      && (r.Success? && r.value.project.repoId.Some? ==> ReportAsWritten(catalog, projectType, ownerSlug, nameSlug, issues, kinds) == r)
      && (r.Failure? ==> ReportAsWritten(catalog, projectType, ownerSlug, nameSlug, issues, kinds) == r)
  {
    var r := Report(catalog, projectType, ownerSlug, nameSlug, issues, kinds);
    if r.Success? && r.value.project.repoId.None? {
      assert IssuesOf(issues, None) == [];
      assert ActiveIssues([]) == [];
      assert Keys([], CategoryOf(kinds)) == [];
    }
  }

  /** `items` holds the groups of `keys`, in that order, each sorted by kind_key. */
  ghost predicate SortedGroups(items: seq<(string, seq<Issue>)>, groups: map<string, seq<Issue>>, keys: seq<string>) {
    && ItemKeys(items) == keys
    && forall j :: 0 <= j < |items| ==> items[j].0 in groups && items[j].1 == SortBy(groups[items[j].0], KindKey)
  }

  /** Appending the next key's sorted group extends the sorted groups by that key. */
  lemma {:induction false} SortedGroupsSnoc(items: seq<(string, seq<Issue>)>, groups: map<string, seq<Issue>>, keys: seq<string>, c: string)
    requires SortedGroups(items, groups, keys) && c in groups
    ensures SortedGroups(items + [(c, SortBy(groups[c], KindKey))], groups, keys + [c])
  {
    var longer := items + [(c, SortBy(groups[c], KindKey))];
    assert ItemKeys(longer) == keys + [c];
  }

  /**
   * The loop of `OrderedDict((key, sorted(value, key=kind_key)) for key, value in sorted(groups.items()))`
   * once the categories are sorted: each category with its issues sorted by kind_key.
   */
  method SortGroups(groups: map<string, seq<Issue>>, cats: seq<string>) returns (items: seq<(string, seq<Issue>)>)
    requires forall c :: c in cats ==> c in groups
    ensures SortedGroups(items, groups, cats)
  {
    items := [];
    for j := 0 to |cats|
      invariant SortedGroups(items, groups, cats[..j])
    {
      var c := cats[j];
      assert cats[..j + 1] == cats[..j] + [c];
      SortedGroupsSnoc(items, groups, cats[..j], c);
      items := items + [(c, SortBy(groups[c], KindKey))];
    }
    assert cats[..|cats|] == cats;
  }

  /** Sorting the dict of category lists gives the category groups of the active issues. */
  lemma {:induction false} SortedGroupsAreCategoryGroups(groups: map<string, seq<Issue>>, order: seq<string>, active: seq<Issue>, kinds: Registry, items: seq<(string, seq<Issue>)>)
    requires GroupedBy(groups, order, active, CategoryOf(kinds))
    requires SortedGroups(items, groups, SortStrings(order))
    ensures items == CategoryGroups(SortStrings(order), active, kinds)
  {
    var cats := SortStrings(order);
    var expected := CategoryGroups(cats, active, kinds);
    forall j | 0 <= j < |items|
      ensures items[j] == expected[j]
    {
      assert items[j].0 == cats[j];
    }
  }

  /** `AuditReport.get_context_data`, with the repository guard at both queries. */
  method GetContextData(catalog: Catalog, projectType: string, ownerSlug: string, nameSlug: string, issues: seq<Issue>, kinds: Registry)
    returns (r: Result<ReportContext, ViewError>)
    ensures r == Report(catalog, projectType, ownerSlug, nameSlug, issues, kinds)
  {
    var model := ProjectModel(catalog, projectType);
    if model.None? {
      return Failure(Http404("Project.DoesNotExist"));
    }
    var found := GetProject(model.value.0, model.value.1, ownerSlug, nameSlug);
    if found.Failure? {
      return Failure(found.error);
    }
    var project := found.value;
    var repoIssues := IssuesOf(issues, project.repoId);
    var active := ActiveIssues(repoIssues);
    var groups, order := GroupBy(active, CategoryOf(kinds));
    var cats := SortStrings(order);
    forall c | c in cats
      ensures c in groups
    {
      assert c in multiset(cats);
    }
    var items := SortGroups(groups, cats);
    SortedGroupsAreCategoryGroups(groups, order, active, kinds, items);
    var deleted := DeletedIssues(repoIssues);
    if |deleted| > 0 {
      items := SetItem(items, DeprecatedIssues, deleted);
    }
    r := Success(ReportContext(project, projectType, items));
  }

  // ---------------------------------------------------------------------------
  // The manual WONTFIX override

  /** The rows whose primary key is `pk`. */
  function WithPk(rows: map<IssueId, Issue>, pk: int): set<IssueId> {
    set id | id in rows && rows[id].pk == pk
  }

  /** The table after `wontfix_issue` saves row `id`: status WONTFIX and the comment, nothing else. */
  function WontfixIn(t: Table, id: IssueId, comment: string): (r: Table)
    requires id in t.rows
    ensures r.rows.Keys == t.rows.Keys && r.nextPk == t.nextPk
    ensures forall other :: other in t.rows && other != id ==> r.rows[other] == t.rows[other]
  {
    Table(t.rows[id := t.rows[id].(status := Wontfix, comment := comment)], t.nextPk)
  }

  /**
   * A WONTFIX issue stays WONTFIX while its check keeps finding it, becomes FIXED once it
   * is no longer found, and keeps its comment through both.
   */
  lemma {:induction false} WontfixIsSticky(t: Table, id: IssueId, comment: string, details: Option<Details>, now: int)
    requires id in t.rows
    ensures SaveIn(WontfixIn(t, id, comment), id, true, details, now).rows[id].status == Wontfix
    ensures SaveIn(WontfixIn(t, id, comment), id, false, details, now).rows[id].status == Fixed
    ensures SaveIn(WontfixIn(t, id, comment), id, true, details, now).rows[id].comment == comment
    ensures SaveIn(WontfixIn(t, id, comment), id, false, details, now).rows[id].comment == comment
  {
  }

  /**
   * `wontfix_issue`: fetch the issue by pk, set status WONTFIX and the posted comment, save,
   * and redirect to the report. A pk with no row raises `DoesNotExist`; a missing comment
   * field raises `MultiValueDictKeyError`, which the view does not catch; on any error
   * nothing is saved.
   */
  method WontfixIssue(store: IssueStore, projectType: string, ownerSlug: string, nameSlug: string, pk: int, comment: Option<string>)
    returns (r: Result<ReportLink, ViewError>)
    requires store.Valid()
    modifies store
    ensures store.Valid()
    ensures WithPk(old(store.rows), pk) == {} <==> r == Failure(ServerError("Issue.DoesNotExist"))
    ensures |WithPk(old(store.rows), pk)| > 1 <==> r == Failure(ServerError("Issue.MultipleObjectsReturned"))
    ensures |WithPk(old(store.rows), pk)| == 1 && comment.None? <==> r == Failure(ServerError("MultiValueDictKeyError"))
    ensures |WithPk(old(store.rows), pk)| == 1 && comment.Some? <==> r.Success?
    ensures r.Failure? ==> store.State() == old(store.State())
    ensures r.Success? ==>
      && r.value == ReportLink(projectType, ownerSlug, nameSlug)
      && comment.Some?
      && exists id :: WithPk(old(store.rows), pk) == {id} && store.State() == WontfixIn(old(store.State()), id, comment.value)
  {
    var matches := set id | id in store.rows && store.rows[id].pk == pk;
    assert matches == WithPk(store.rows, pk);
    if |matches| == 0 {
      return Failure(ServerError("Issue.DoesNotExist"));
    }
    if |matches| > 1 {
      return Failure(ServerError("Issue.MultipleObjectsReturned"));
    }
    var id :| id in matches;
    assert |matches - {id}| == 0;
    assert matches == {id};
    if comment.None? {
      return Failure(ServerError("MultiValueDictKeyError"));
    }
    var issue := store.rows[id];
    store.rows := store.rows[id := issue.(status := Wontfix, comment := comment.value)];
    r := Success(ReportLink(projectType, ownerSlug, nameSlug));
  }
}
