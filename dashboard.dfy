/**
 * The in-memory application list of the dashboard page
 * (frontend/src/pages/dashboard.jsx): the seed data, `normalize`, the status
 * pill's class name, the `metrics` and `filteredApplications` memos, and the
 * add, delete and refresh handlers that replace the component's state.
 *
 * `localeCompare` depends on the browser's locale; it is a parameter
 * `collate`, where `collate(a, b)` means `a.localeCompare(b) <= 0`, and the
 * sorting properties assume only that it is a total preorder.
 */
module Dashboard {
  import opened Wrappers
  import opened Text

  /** One tracked job application. `contacts` may be missing on a record. */
  datatype Application = Application(
    id: int,
    title: string,
    company: string,
    location: string,
    status: string,
    next: string,
    docs: int,
    contacts: Option<int>)

  /** A reminder, attached to the application whose id is `applicationId`. */
  datatype Reminder = Reminder(id: int, date: string, text: string, applicationId: int)

  const SeedApplications: seq<Application> := [
    Application(1, "Software Engineer Intern", "Google", "Mountain View, CA", "Interviewing",
                "Interview • Feb 28, 2:00 PM", 2, Some(1)),
    Application(2, "Marketing Coordinator", "Amazon", "Seattle, WA", "Applied",
                "Follow-up • Feb 26", 1, Some(1)),
    Application(3, "Data Analyst", "Amazon", "Remote", "Offer", "Review offer", 2, Some(2)),
    Application(4, "UX Designer", "Boeing", "Everett, WA", "Saved", "Apply", 1, Some(0)),
    Application(5, "Project Manager", "Microsoft", "Redmond, WA", "Rejected", "Archive", 1, Some(0)),
    Application(6, "Business Analyst", "Chase", "Tempe, AZ", "Applied", "Follow-up", 2, Some(1))
  ]

  const SeedReminders: seq<Reminder> := [
    Reminder(1, "Feb 26", "Follow-up Call (Amazon)", 2),
    Reminder(2, "Feb 28", "Interview (Google)", 1),
    Reminder(3, "Mar 1", "Application Deadline (Microsoft)", 5)
  ]

  // ---------------------------------------------------------------------
  // Text
  // ---------------------------------------------------------------------

  /** `normalize(value)`: `String(value ?? "").toLowerCase().trim()`. */
  function Normalize(value: Option<string>): (r: string)
    ensures |r| <= |value.GetOr("")|
  {
    Trim(ToLower(value.GetOr("")))
  }

  /** Normalising twice is normalising once. */
  lemma NormalizeIdempotent(value: Option<string>)
    ensures Normalize(Some(Normalize(value))) == Normalize(value)
  {
    var s := ToLower(value.GetOr(""));
    ToLowerIdempotent(value.GetOr(""));
    assert ToLower(s) == s;
    TrimLowerCommute(s);
    assert ToLower(Trim(s)) == Trim(s);
    TrimIdempotent(s);
  }

  /** A normalised value has no upper-case letter and no whitespace at either end. */
  lemma NormalizeShape(value: Option<string>)
    ensures Canonical(Normalize(value))
  {
    TrimKeepsNoUpper(ToLower(value.GetOr("")));
  }

  /** A value is left as it is exactly when it has no upper-case letter and
      no whitespace at either end. */
  lemma NormalizeFixedPoint(s: string)
    ensures Normalize(Some(s)) == s <==> Canonical(s)
  {
    if Canonical(s) {
      assert Normalize(Some(s)) == s by {
        ToLowerNoUpper(s);
        TrimFixedPoint(s);
      }
    }
    NormalizeShape(Some(s));
  }

  /** A missing value normalises to the empty string. */
  lemma NormalizeMissing()
    ensures Normalize(None) == ""
  {
  }

  const PillPrefix := "status-pill status-"

  /** The class name `StatusPill` renders: the prefix, then the normalised
      status with each run of whitespace replaced by a dash. */
  function StatusPillClass(status: Option<string>): (r: string)
    ensures StartsWith(r, PillPrefix)
    ensures forall k :: |PillPrefix| <= k < |r| ==> !IsSpace(r[k])
  {
    var suffix := DashSpaceRuns(Normalize(status));
    DashSpaceRunsLeavesNoSpace(Normalize(status));
    assert (PillPrefix + suffix)[..|PillPrefix|] == PillPrefix;
    PillPrefix + suffix
  }

  /** A two-word status gives the two words lower-cased and joined by a single
      dash, however long the whitespace between them. */
  lemma StatusPillTwoWords(x: string, w: string, y: string)
    requires x != [] && forall k :: 0 <= k < |x| ==> !IsSpace(x[k])
    requires w != [] && forall k :: 0 <= k < |w| ==> IsSpace(w[k])
    requires y != [] && forall k :: 0 <= k < |y| ==> !IsSpace(y[k])
    ensures StatusPillClass(Some(x + w + y)) == PillPrefix + (ToLower(x) + "-" + ToLower(y))
  {
    var lx, lw, ly := ToLower(x), ToLower(w), ToLower(y);
    LowerRun(x, w, y);
    DashTrimRun(lx, lw, ly);
    var dashed := DashSpaceRuns(Normalize(Some(x + w + y)));
    assert dashed == lx + "-" + ly;
    assert StatusPillClass(Some(x + w + y)) == PillPrefix + dashed;
  }

  /** A one-word status gives the prefix and the lower-cased status. */
  lemma StatusPillOneWord(status: string)
    requires forall k :: 0 <= k < |status| ==> !IsSpace(status[k])
    ensures StatusPillClass(Some(status)) == PillPrefix + ToLower(status)
  {
    var lower := ToLower(status);
    forall k | 0 <= k < |lower| ensures !IsSpace(lower[k]) {
      ToLowerKeepsSpaces(status, k);
    }
    TrimFixedPoint(lower);
    DashSpaceRunsNoSpace(lower);
  }

  // ---------------------------------------------------------------------
  // Generic list operations
  // ---------------------------------------------------------------------

  /** `s.filter(keep)`: the elements that satisfy `keep`, in their order. */
  function Filter<T>(s: seq<T>, keep: T -> bool): (r: seq<T>)
    ensures |r| <= |s|
    ensures forall k :: 0 <= k < |r| ==> keep(r[k])
    decreases |s|
  {
    if s == [] then []
    else if keep(s[0]) then [s[0]] + Filter(s[1..], keep)
    else Filter(s[1..], keep)
  }

  /** Each element that passes is kept as often as it occurs; no other is. */
  lemma {:induction false} FilterCount<T>(s: seq<T>, keep: T -> bool, x: T)
    ensures multiset(Filter(s, keep))[x] == if keep(x) then multiset(s)[x] else 0
    decreases |s|
  {
    if s != [] {
      FilterCount(s[1..], keep, x);
      assert s == [s[0]] + s[1..];
    }
  }

  lemma FilterMembership<T>(s: seq<T>, keep: T -> bool, x: T)
    ensures x in Filter(s, keep) <==> x in s && keep(x)
  {
    FilterCount(s, keep, x);
    assert x in Filter(s, keep) <==> multiset(Filter(s, keep))[x] > 0;
    assert x in s <==> multiset(s)[x] > 0;
  }

  /** `a` is obtained from `b` by deleting elements: `a` keeps `b`'s order. */
  predicate Subsequence<T(==)>(a: seq<T>, b: seq<T>)
    decreases |b|
  {
    a == [] || (b != [] && if a[0] == b[0] then Subsequence(a[1..], b[1..]) else Subsequence(a, b[1..]))
  }

  /** `filter` keeps the relative order of what it keeps. */
  lemma {:induction false} FilterIsSubsequence<T>(s: seq<T>, keep: T -> bool)
    ensures Subsequence(Filter(s, keep), s)
    decreases |s|
  {
    if s != [] {
      FilterIsSubsequence(s[1..], keep);
      if !keep(s[0]) {
        SkipHead(Filter(s[1..], keep), s);
      }
    }
  }

  lemma {:induction false} SkipHead<T>(a: seq<T>, b: seq<T>)
    requires b != [] && Subsequence(a, b[1..])
    ensures Subsequence(a, b)
    decreases |b|, 0
  {
    if a != [] && a[0] == b[0] {
      DropFirstMatch(a, b[1..]);
    }
  }

  /** If `a` embeds in `b`, then so does `a` without its head. */
  lemma {:induction false} DropFirstMatch<T>(a: seq<T>, b: seq<T>)
    requires a != [] && Subsequence(a, b)
    ensures Subsequence(a[1..], b)
    decreases |b|, 1
  {
    if a[0] != b[0] {
      DropFirstMatch(a, b[1..]);
    }
    SkipHead(a[1..], b);
  }

  /** When every element passes, `filter` returns the list unchanged. */
  lemma {:induction false} FilterAll<T>(s: seq<T>, keep: T -> bool)
    requires forall k :: 0 <= k < |s| ==> keep(s[k])
    ensures Filter(s, keep) == s
    decreases |s|
  {
    if s != [] {
      FilterAll(s[1..], keep);
    }
  }

  /** `[...s].reverse()`. */
  function Reverse<T>(s: seq<T>): (r: seq<T>)
    ensures |r| == |s|
    ensures multiset(r) == multiset(s)
    decreases |s|
  {
    if s == [] then []
    else
      assert s == [s[0]] + s[1..];
      Reverse(s[1..]) + [s[0]]
  }

  /** Reversal puts the element `k` places from the end at position `k`. */
  lemma {:induction false} ReverseIndex<T>(s: seq<T>, k: int)
    requires 0 <= k < |s|
    ensures Reverse(s)[k] == s[|s| - 1 - k]
    decreases |s|
  {
    if k < |s| - 1 {
      ReverseIndex(s[1..], k);
    }
  }

  // ---------------------------------------------------------------------
  // Sorting under the locale's collation
  // ---------------------------------------------------------------------

  /** `collate(a, b)` holds when `a.localeCompare(b) <= 0`. */
  type Collation = (string, string) -> bool

  /** What `localeCompare` is assumed to be: total and transitive. */
  ghost predicate TotalPreorder(collate: Collation) {
    && (forall a, b :: collate(a, b) || collate(b, a))
    && (forall a, b, c :: collate(a, b) && collate(b, c) ==> collate(a, c))
  }

  /** `s` is ordered by `key` under `collate`. */
  ghost predicate SortedBy(s: seq<Application>, key: Application -> string, collate: Collation) {
    forall i, j :: 0 <= i < j < |s| ==> collate(key(s[i]), key(s[j]))
  }

  /** Places `x` before the first element whose key it does not exceed. */
  function Insert(x: Application, s: seq<Application>, key: Application -> string, collate: Collation)
    : (r: seq<Application>)
    ensures multiset(r) == multiset(s) + multiset{x}
    ensures |r| == |s| + 1
    decreases |s|
  {
    if s == [] then [x]
    else if collate(key(x), key(s[0])) then [x] + s
    else
      assert s == [s[0]] + s[1..];
      [s[0]] + Insert(x, s[1..], key, collate)
  }

  /** `[...s].sort((x, y) => key(x).localeCompare(key(y)))`, as a stable
      insertion sort: equal keys keep their order. */
  function SortBy(s: seq<Application>, key: Application -> string, collate: Collation)
    : (r: seq<Application>)
    ensures multiset(r) == multiset(s)
    ensures |r| == |s|
    decreases |s|
  {
    if s == [] then []
    else
      assert s == [s[0]] + s[1..];
      Insert(s[0], SortBy(s[1..], key, collate), key, collate)
  }

  lemma {:induction false} InsertSorted(x: Application, s: seq<Application>,
                                        key: Application -> string, collate: Collation)
    requires TotalPreorder(collate) && SortedBy(s, key, collate)
    ensures SortedBy(Insert(x, s, key, collate), key, collate)
    decreases |s|
  {
    if s != [] && !collate(key(x), key(s[0])) {
      InsertSorted(x, s[1..], key, collate);
      var r := Insert(x, s, key, collate);
      var tail := Insert(x, s[1..], key, collate);
      assert r == [s[0]] + tail;
      forall j | 0 < j < |r| ensures collate(key(s[0]), key(r[j])) {
        var y := r[j];
        assert y in multiset(tail);
        if y != x {
          assert y in multiset(s[1..]);
          var m :| 0 <= m < |s[1..]| && s[1..][m] == y;
          assert s[m + 1] == y;
        }
      }
    }
  }

  /** Sorting yields a list ordered by the key. */
  lemma {:induction false} SortBySorted(s: seq<Application>, key: Application -> string, collate: Collation)
    requires TotalPreorder(collate)
    ensures SortedBy(SortBy(s, key, collate), key, collate)
    decreases |s|
  {
    if s != [] {
      SortBySorted(s[1..], key, collate);
      InsertSorted(s[0], SortBy(s[1..], key, collate), key, collate);
    }
  }

  // ---------------------------------------------------------------------
  // The memos
  // ---------------------------------------------------------------------

  /** `a.contacts || 0`. */
  function ContactsOf(a: Application): (r: int)
    ensures a.contacts.None? ==> r == 0
    ensures a.contacts.Some? ==> r == a.contacts.value
  {
    a.contacts.GetOr(0)
  }

  /** The number of contacts over a list, summed from the front. */
  function TotalContacts(apps: seq<Application>): (r: int)
    ensures (forall k :: 0 <= k < |apps| ==> ContactsOf(apps[k]) >= 0) ==> r >= 0
    decreases |apps|
  {
    if apps == [] then 0 else ContactsOf(apps[0]) + TotalContacts(apps[1..])
  }

  lemma {:induction false} TotalContactsAppend(a: seq<Application>, b: seq<Application>)
    ensures TotalContacts(a + b) == TotalContacts(a) + TotalContacts(b)
    decreases |a|
  {
    if a == [] {
      assert a + b == b;
    } else {
      assert (a + b)[0] == a[0];
      assert (a + b)[1..] == a[1..] + b;
      TotalContactsAppend(a[1..], b);
    }
  }

  /** `applications.reduce((sum, a) => sum + (a.contacts || 0), acc)`. */
  function ReduceContacts(acc: int, apps: seq<Application>): (r: int)
    ensures r == acc + TotalContacts(apps)
    decreases |apps|
  {
    if apps == [] then acc else ReduceContacts(acc + ContactsOf(apps[0]), apps[1..])
  }

  datatype Metrics = Metrics(totalApplications: nat, activeContacts: int, setReminders: nat)

  /** The `metrics` memo. */
  function ComputeMetrics(applications: seq<Application>, reminders: seq<Reminder>): (m: Metrics)
    ensures m.totalApplications == |applications|
    ensures m.activeContacts == TotalContacts(applications)
    ensures m.setReminders == |reminders|
  {
    Metrics(|applications|, ReduceContacts(0, applications), |reminders|)
  }

  /** The search box: an empty normalised query, or a substring of the
      normalised title, company or location. */
  predicate MatchesQuery(a: Application, q: string)
    ensures q == "" ==> MatchesQuery(a, q)
    ensures MatchesQuery(a, q) ==>
      q == "" || |q| <= |a.title| || |q| <= |a.company| || |q| <= |a.location|
  {
    q == "" ||
    Includes(Normalize(Some(a.title)), q) ||
    Includes(Normalize(Some(a.company)), q) ||
    Includes(Normalize(Some(a.location)), q)
  }

  /** The status select: "all", or the normalised status equal to the filter. */
  predicate MatchesStatus(a: Application, statusFilter: string)
    ensures statusFilter == "all" ==> MatchesStatus(a, statusFilter)
    ensures statusFilter != "all" && Normalize(Some(statusFilter)) != statusFilter ==>
      !MatchesStatus(a, statusFilter)
  {
    NormalizeIdempotent(Some(a.status));
    statusFilter == "all" || Normalize(Some(a.status)) == statusFilter
  }

  /** The `filter` step of `filteredApplications`. */
  function Matching(applications: seq<Application>, query: string, statusFilter: string)
    : (r: seq<Application>)
    ensures |r| <= |applications|
    ensures forall k :: 0 <= k < |r| ==>
      MatchesQuery(r[k], Normalize(Some(query))) && MatchesStatus(r[k], statusFilter)
  {
    var q := Normalize(Some(query));
    Filter(applications, a => MatchesQuery(a, q) && MatchesStatus(a, statusFilter))
  }

  function CompanyOf(a: Application): string { a.company }
  function StatusOf(a: Application): string { a.status }

  /** The ordering step of `filteredApplications`: "oldest" reverses the
      list, "company" and "status" sort it by that field, and any other value
      ("newest") keeps it as it is. */
  function Arrange(list: seq<Application>, sortBy: string, collate: Collation): (r: seq<Application>)
    ensures |r| == |list|
    ensures multiset(r) == multiset(list)
  {
    if sortBy == "oldest" then Reverse(list)
    else if sortBy == "company" then SortBy(list, CompanyOf, collate)
    else if sortBy == "status" then SortBy(list, StatusOf, collate)
    else list
  }

  /** The `filteredApplications` memo: filter, then order by `sortBy`. */
  function FilteredApplications(applications: seq<Application>, query: string, statusFilter: string,
                                sortBy: string, collate: Collation)
    : (r: seq<Application>)
    ensures |r| <= |applications|
    ensures multiset(r) == multiset(Matching(applications, query, statusFilter))
  {
    Arrange(Matching(applications, query, statusFilter), sortBy, collate)
  }

  /** An application is shown exactly when it matches both the query and the
      status filter, whatever the order chosen. */
  lemma FilteredMembership(applications: seq<Application>, query: string, statusFilter: string,
                           sortBy: string, collate: Collation, a: Application)
    ensures a in FilteredApplications(applications, query, statusFilter, sortBy, collate) <==>
      a in applications && MatchesQuery(a, Normalize(Some(query))) && MatchesStatus(a, statusFilter)
  {
    var r := FilteredApplications(applications, query, statusFilter, sortBy, collate);
    var q := Normalize(Some(query));
    assert a in r <==> multiset(r)[a] > 0;
    FilterMembership(applications, a => MatchesQuery(a, q) && MatchesStatus(a, statusFilter), a);
  }

  /** A query of whitespace only hides nothing: with every status and the
      default order, the whole list is shown as it is. */
  lemma BlankQueryShowsAll(applications: seq<Application>, query: string, collate: Collation)
    requires forall k :: 0 <= k < |query| ==> IsSpace(query[k])
    ensures FilteredApplications(applications, query, "all", "newest", collate) == applications
  {
    var lower := ToLower(query);
    forall k | 0 <= k < |lower| ensures IsSpace(lower[k]) {
      ToLowerKeepsSpaces(query, k);
    }
    TrimBlank(lower);
    assert Normalize(Some(query)) == "";
    FilterAll(applications, a => MatchesQuery(a, "") && MatchesStatus(a, "all"));
  }

  /** "newest" (and any unknown order) shows the matches in list order. */
  lemma FilteredNewest(applications: seq<Application>, query: string, statusFilter: string,
                       sortBy: string, collate: Collation)
    requires sortBy != "oldest" && sortBy != "company" && sortBy != "status"
    ensures Subsequence(FilteredApplications(applications, query, statusFilter, sortBy, collate),
                        applications)
  {
    var q := Normalize(Some(query));
    FilterIsSubsequence(applications, a => MatchesQuery(a, q) && MatchesStatus(a, statusFilter));
  }

  /** "oldest" shows the matches in exactly the reverse of list order. */
  lemma ArrangeOldest(list: seq<Application>, collate: Collation, k: int)
    requires 0 <= k < |list|
    ensures Arrange(list, "oldest", collate)[k] == list[|list| - 1 - k]
  {
    ReverseIndex(list, k);
  }

  /** "company" and "status" order the matches by that field. */
  lemma FilteredSorted(applications: seq<Application>, query: string, statusFilter: string,
                       collate: Collation)
    requires TotalPreorder(collate)
    ensures SortedBy(FilteredApplications(applications, query, statusFilter, "company", collate),
                     CompanyOf, collate)
    ensures SortedBy(FilteredApplications(applications, query, statusFilter, "status", collate),
                     StatusOf, collate)
  {
    var list := Matching(applications, query, statusFilter);
    SortBySorted(list, CompanyOf, collate);
    SortBySorted(list, StatusOf, collate);
  }

  // ---------------------------------------------------------------------
  // The handlers
  // ---------------------------------------------------------------------

  /** `Math.max(0, ...applications.map((a) => a.id))`. */
  function MaxId(applications: seq<Application>): (m: int)
    ensures m >= 0
    ensures forall a :: a in applications ==> a.id <= m
    ensures m == 0 || exists a :: a in applications && a.id == m
    decreases |applications|
  {
    if applications == [] then 0
    else
      var rest := MaxId(applications[1..]);
      assert forall a :: a in applications ==> a == applications[0] || a in applications[1..];
      if applications[0].id > rest then applications[0].id else rest
  }

  /** The record `handleAddApplication` creates. */
  function NewApplication(id: int): (r: Application)
    ensures r.id == id && ContactsOf(r) == 0
  {
    Application(id, "New Application", "Company", "Location", "Saved", "Set next step", 0, Some(0))
  }

  /** The new record shows under the "saved" status filter. */
  lemma NewApplicationSaved(id: int)
    ensures MatchesStatus(NewApplication(id), "saved")
  {
    assert ToLower("Saved") == "saved";
    TrimFixedPoint("saved");
  }

  /** Adding keeps the contact total and adds one application to the count,
      whatever id the new record gets. */
  lemma AddApplicationMetrics(applications: seq<Application>, reminders: seq<Reminder>, id: int)
    ensures ComputeMetrics([NewApplication(id)] + applications, reminders).totalApplications ==
            ComputeMetrics(applications, reminders).totalApplications + 1
    ensures ComputeMetrics([NewApplication(id)] + applications, reminders).activeContacts ==
            ComputeMetrics(applications, reminders).activeContacts
    ensures ComputeMetrics([NewApplication(id)] + applications, reminders).setReminders ==
            ComputeMetrics(applications, reminders).setReminders
  {
    var added := NewApplication(id);
    assert TotalContacts([added]) == 0 by {
      assert [added][1..] == [];
    }
    TotalContactsAppend([added], applications);
  }

  /** The cards over the seed data: six applications, five contacts, three
      reminders. */
  lemma SeedMetrics()
    ensures ComputeMetrics(SeedApplications, SeedReminders) == Metrics(6, 5, 3)
  {
    assert SeedApplications == SeedApplications[..1] + SeedApplications[1..];
  }

  /** `prev.filter((a) => a.id !== appId)`. */
  function RemoveApplication(applications: seq<Application>, appId: int): (r: seq<Application>)
    ensures forall a :: a in r <==> a in applications && a.id != appId
    ensures forall a: Application :: a.id != appId ==> multiset(r)[a] == multiset(applications)[a]
  {
    var keep := (a: Application) => a.id != appId;
    forall a ensures a in Filter(applications, keep) <==> a in applications && a.id != appId {
      FilterMembership(applications, keep, a);
    }
    forall a: Application | a.id != appId
      ensures multiset(Filter(applications, keep))[a] == multiset(applications)[a]
    {
      FilterCount(applications, keep, a);
    }
    Filter(applications, keep)
  }

  /** `prev.filter((r) => r.applicationId !== appId)`. */
  function DetachReminders(reminders: seq<Reminder>, appId: int): (r: seq<Reminder>)
    ensures forall x :: x in r <==> x in reminders && x.applicationId != appId
    ensures forall x: Reminder :: x.applicationId != appId ==> multiset(r)[x] == multiset(reminders)[x]
  {
    var keep := (x: Reminder) => x.applicationId != appId;
    forall x ensures x in Filter(reminders, keep) <==> x in reminders && x.applicationId != appId {
      FilterMembership(reminders, keep, x);
    }
    forall x: Reminder | x.applicationId != appId
      ensures multiset(Filter(reminders, keep))[x] == multiset(reminders)[x]
    {
      FilterCount(reminders, keep, x);
    }
    Filter(reminders, keep)
  }

  /** Deleting keeps the order of what stays. */
  lemma DeleteKeepsOrder(applications: seq<Application>, reminders: seq<Reminder>, appId: int)
    ensures Subsequence(RemoveApplication(applications, appId), applications)
    ensures Subsequence(DetachReminders(reminders, appId), reminders)
  {
    FilterIsSubsequence(applications, (a: Application) => a.id != appId);
    FilterIsSubsequence(reminders, (x: Reminder) => x.applicationId != appId);
  }

  /** Deleting an id that no application carries leaves the list as it is. */
  lemma RemoveAbsentId(applications: seq<Application>, appId: int)
    requires forall k :: 0 <= k < |applications| ==> applications[k].id != appId
    ensures RemoveApplication(applications, appId) == applications
  {
    FilterAll(applications, (a: Application) => a.id != appId);
  }

  /** Deleting an id that no reminder refers to leaves the reminders as they are. */
  lemma DetachAbsentId(reminders: seq<Reminder>, appId: int)
    requires forall k :: 0 <= k < |reminders| ==> reminders[k].applicationId != appId
    ensures DetachReminders(reminders, appId) == reminders
  {
    FilterAll(reminders, (x: Reminder) => x.applicationId != appId);
  }

  // ---------------------------------------------------------------------
  // The component state
  // ---------------------------------------------------------------------

  ghost predicate UniqueIds(applications: seq<Application>) {
    forall i, j :: 0 <= i < j < |applications| ==> applications[i].id != applications[j].id
  }

  predicate HasId(applications: seq<Application>, id: int) {
    exists a :: a in applications && a.id == id
  }

  /** Every reminder belongs to an application on the list. */
  ghost predicate RemindersAttached(reminders: seq<Reminder>, applications: seq<Application>) {
    forall x :: x in reminders ==> HasId(applications, x.applicationId)
  }

  lemma {:induction false} FilterKeepsUniqueIds(applications: seq<Application>, keep: Application -> bool)
    requires UniqueIds(applications)
    ensures UniqueIds(Filter(applications, keep))
    decreases |applications|
  {
    if applications != [] {
      var head, tail := applications[0], applications[1..];
      FilterKeepsUniqueIds(tail, keep);
      var rest := Filter(tail, keep);
      if keep(head) {
        var r := [head] + rest;
        assert Filter(applications, keep) == r;
        forall i, j | 0 <= i < j < |r| ensures r[i].id != r[j].id {
          if i == 0 {
            var y := rest[j - 1];
            assert y in rest;
            FilterMembership(tail, keep, y);
            var m :| 0 <= m < |tail| && tail[m] == y;
            assert applications[m + 1] == y;
          } else {
            assert r[i] == rest[i - 1] && r[j] == rest[j - 1];
          }
        }
      } else {
        assert Filter(applications, keep) == rest;
      }
    }
  }

  /**
   * The state of the `Dashboard` component: the lists and the four controls.
   * The object invariant is the one the handlers keep: ids are unique and
   * every reminder belongs to a listed application.
   */
  class Board {
    var applications: seq<Application>
    var reminders: seq<Reminder>
    var query: string
    var statusFilter: string
    var sortBy: string
    var viewMode: string

    ghost predicate Valid()
      reads this
    {
      UniqueIds(applications) && RemindersAttached(reminders, applications)
    }

    /** The `useState` initial values. */
    constructor ()
      ensures Valid()
      ensures applications == SeedApplications && reminders == SeedReminders
      ensures query == "" && statusFilter == "all" && sortBy == "newest" && viewMode == "cards"
    {
      applications := SeedApplications;
      reminders := SeedReminders;
      query := "";
      statusFilter := "all";
      sortBy := "newest";
      viewMode := "cards";
      new;
      SeedsValid();
    }

    /** `handleAddApplication`: a new record with the next id goes first. */
    method AddApplication()
      requires Valid()
      modifies this`applications
      ensures Valid()
      ensures applications == [NewApplication(MaxId(old(applications)) + 1)] + old(applications)
      ensures |applications| == |old(applications)| + 1
      ensures forall a :: a in old(applications) ==> a.id != applications[0].id
      ensures applications[0].id > 0
    {
      var nextId := MaxId(applications) + 1;
      var added := NewApplication(nextId);
      ghost var prev := applications;
      applications := [added] + applications;
      forall i, j | 0 <= i < j < |applications|
        ensures applications[i].id != applications[j].id
      {
        assert applications[j] == prev[j - 1];
        if i > 0 {
          assert applications[i] == prev[i - 1];
        } else {
          assert prev[j - 1] in prev;
        }
      }
      forall x | x in reminders ensures HasId(applications, x.applicationId) {
        var a :| a in prev && a.id == x.applicationId;
        assert a in applications;
      }
    }

    /** `handleDelete(appId)`: the application and its reminders go. */
    method Delete(appId: int)
      requires Valid()
      modifies this`applications, this`reminders
      ensures Valid()
      ensures applications == RemoveApplication(old(applications), appId)
      ensures reminders == DetachReminders(old(reminders), appId)
      ensures forall a :: a in applications ==> a.id != appId
      ensures forall x :: x in reminders ==> x.applicationId != appId
    {
      ghost var prevApps, prevReminders := applications, reminders;
      applications := RemoveApplication(applications, appId);
      reminders := DetachReminders(reminders, appId);
      FilterKeepsUniqueIds(prevApps, (a: Application) => a.id != appId);
      forall x | x in reminders ensures HasId(applications, x.applicationId) {
        assert x in prevReminders;
        var a :| a in prevApps && a.id == x.applicationId;
        assert a in applications;
      }
    }

    /** `handleRefresh`: back to the seeds and the default controls. */
    method Refresh()
      requires Valid()
      modifies this
      ensures Valid()
      ensures applications == SeedApplications && reminders == SeedReminders
      ensures query == "" && statusFilter == "all" && sortBy == "newest" && viewMode == "cards"
    {
      applications := SeedApplications;
      reminders := SeedReminders;
      query := "";
      statusFilter := "all";
      sortBy := "newest";
      viewMode := "cards";
      SeedsValid();
    }
  }

  /** The seed data satisfies the component invariant. */
  lemma SeedsValid()
    ensures UniqueIds(SeedApplications) && RemindersAttached(SeedReminders, SeedApplications)
  {
    assert SeedApplications[1] in SeedApplications;
    assert SeedApplications[0] in SeedApplications;
    assert SeedApplications[4] in SeedApplications;
  }
}
