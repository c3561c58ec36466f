/** client/src/components/AdminDashboard.js: the progress and days-left
    helpers, the filter/search/sort pipeline over the applications list, and
    the component state that deleting a campaign, deciding an application
    and editing notes replace. Fetching, rendering, `window.confirm` and the
    notes debounce timer are not part of this model: the outcome of a
    confirmation or a request is a parameter. */
module AdminDashboard {
  import opened Models
  import opened Text
  import Lists

  /** `Math.round`: the nearest integer, halves rounded up. */
  function Round(x: real): (n: int)
    ensures n as real - 0.5 <= x < n as real + 0.5
  {
    (x + 0.5).Floor
  }

  lemma RoundMonotone(x: real, y: real)
    requires x <= y
    ensures Round(x) <= Round(y)
  {
  }

  /** `getProgress`: the funded percentage, rounded, capped at 100; 0 for a
      missing, zero or negative goal (`None`: the field is absent). */
  function GetProgress(raised: real, goal: Option<real>): (p: int)
    ensures p <= 100
    ensures goal.None? || goal.value <= 0.0 ==> p == 0
    ensures goal.Some? && goal.value > 0.0 && raised >= 0.0 ==> p >= 0
    ensures goal.Some? && goal.value > 0.0 && raised >= goal.value ==> p == 100
    ensures goal.Some? && goal.value > 0.0 ==> (p == 100 <==> raised / goal.value * 100.0 >= 99.5)
    ensures goal.Some? && goal.value > 0.0 && p < 100 ==>
      p as real - 0.5 <= raised / goal.value * 100.0 < p as real + 0.5
  {
    if goal.None? || goal.value <= 0.0 then 0
    else
      assert raised >= 0.0 ==> raised / goal.value >= 0.0 by {
        if raised >= 0.0 {
          DivideMonotone(0.0, raised, goal.value);
        }
      }
      assert raised >= goal.value ==> raised / goal.value >= 1.0 by {
        if raised >= goal.value {
          DivideMonotone(goal.value, raised, goal.value);
        }
      }
      var pct := Round((raised / goal.value) * 100.0);
      if pct < 100 then pct else 100
  }

  /** Progress never goes down as a campaign raises more. */
  lemma ProgressMonotone(raised1: real, raised2: real, goal: Option<real>)
    requires raised1 <= raised2
    ensures GetProgress(raised1, goal) <= GetProgress(raised2, goal)
  {
    if goal.Some? && goal.value > 0.0 {
      assert raised1 / goal.value <= raised2 / goal.value by {
        DivideMonotone(raised1, raised2, goal.value);
      }
      RoundMonotone(raised1 / goal.value * 100.0, raised2 / goal.value * 100.0);
    }
  }

  lemma DivideMonotone(a: real, b: real, d: real)
    requires a <= b && d > 0.0
    ensures a / d <= b / d
  {
    assert b / d - a / d == (b - a) / d;
  }

  /** Milliseconds in a day. */
  const DayMs := 1000 * 60 * 60 * 24

  /** `getDaysLeft` at time `now`: none without a creation time; otherwise
      the 30-day window minus the whole days elapsed (rounded down, so a
      creation time in the future counts as negative days), never below 0. */
  function GetDaysLeft(createdAt: Option<int>, now: int): (r: Option<int>)
    ensures r.Some? <==> createdAt.Some?
    ensures r.Some? ==> r.value >= 0
    ensures r.Some? ==> (r.value == 0 <==> now - createdAt.value >= 30 * DayMs)
    ensures r.Some? && r.value > 0 ==>
      (30 - r.value) * DayMs <= now - createdAt.value < (31 - r.value) * DayMs
  {
    if createdAt.None? then None
    else
      var diff := 30 - (now - createdAt.value) / DayMs;
      Some(if diff > 0 then diff else 0)
  }

  /** The countdown never goes up as time passes. */
  lemma DaysLeftNonIncreasing(createdAt: int, now1: int, now2: int)
    requires now1 <= now2
    ensures GetDaysLeft(Some(createdAt), now2).value <= GetDaysLeft(Some(createdAt), now1).value
  {
    var e1, e2 := now1 - createdAt, now2 - createdAt;
    assert (e1 / DayMs) * DayMs <= e1 <= e2 < (e2 / DayMs + 1) * DayMs;
  }

  /** The status dropdown: `all`, or one status. */
  datatype StatusFilter = AllStatuses | OnlyStatus(status: ApplicationStatus)

  /** The sort dropdown. */
  datatype SortOption = DateDesc | DateAsc | GoalDesc | GoalAsc

  /** The order each sort option asks for, between an earlier and a later
      element of the shown list. */
  predicate InOrder(sort: SortOption, a: Doc<Application>, b: Doc<Application>) {
    match sort
    case DateDesc => a.val.createdAt >= b.val.createdAt
    case DateAsc => a.val.createdAt <= b.val.createdAt
    case GoalDesc => a.val.goal >= b.val.goal
    case GoalAsc => a.val.goal <= b.val.goal
  }

  /** The comparator of each option, as an ascending key. */
  function SortKey(sort: SortOption): Doc<Application> -> real {
    match sort
    case DateDesc => NewestApplicationFirst
    case DateAsc => (d: Doc<Application>) => d.val.createdAt as real
    case GoalDesc => (d: Doc<Application>) => -d.val.goal
    case GoalAsc => (d: Doc<Application>) => d.val.goal
  }

  /** The search box matches an application when its lower-cased title or
      description contains the query. */
  predicate SearchHit(a: Doc<Application>, query: string) {
    Contains(ToLower(a.val.title), query) || Contains(ToLower(a.val.description), query)
  }

  /** Which applications the pipeline keeps: the status filter, then the
      trimmed, lower-cased search, skipped when it is blank. */
  predicate Shown(filter: StatusFilter, search: string, a: Doc<Application>) {
    && (filter.OnlyStatus? ==> a.val.status == filter.status)
    && (Trim(search) != [] ==> SearchHit(a, ToLower(Trim(search))))
  }

  /** The status filter and then the search, in the list's order. */
  function Kept(apps: seq<Doc<Application>>, filter: StatusFilter, search: string): (r: seq<Doc<Application>>)
    ensures forall a :: multiset(r)[a] == if Shown(filter, search, a) then multiset(apps)[a] else 0
  {
    var byStatus := if filter.AllStatuses? then apps
                    else Lists.Filter(apps, (a: Doc<Application>) => a.val.status == filter.status);
    var q := ToLower(Trim(search));
    if Trim(search) == [] then byStatus
    else Lists.Filter(byStatus, (a: Doc<Application>) => SearchHit(a, q))
  }

  /** Ascending in an option's key is the order that option asks for. */
  lemma SortedInOrder(sort: SortOption, r: seq<Doc<Application>>)
    requires Lists.SortedBy(r, SortKey(sort))
    ensures forall i, j :: 0 <= i < j < |r| ==> InOrder(sort, r[i], r[j])
  {
    forall i, j | 0 <= i < j < |r| ensures InOrder(sort, r[i], r[j]) {
      assert SortKey(sort)(r[i]) <= SortKey(sort)(r[j]);
    }
  }

  /** The filter/search/sort expression: a permutation of exactly the
      applications `Shown` keeps, in the order of the sort option. */
  function Visible(apps: seq<Doc<Application>>, filter: StatusFilter, search: string, sort: SortOption)
    : (r: seq<Doc<Application>>)
    ensures forall a :: multiset(r)[a] == if Shown(filter, search, a) then multiset(apps)[a] else 0
    ensures forall i, j :: 0 <= i < j < |r| ==> InOrder(sort, r[i], r[j])
  {
    var r := Lists.SortBy(Kept(apps, filter, search), SortKey(sort));
    SortedInOrder(sort, r);
    r
  }

  /** The pipeline never adds an application and never drops one it
      keeps; with the `all` filter and a blank search it shows everything. */
  lemma VisibleIsSubList(apps: seq<Doc<Application>>, filter: StatusFilter, search: string, sort: SortOption)
    ensures |Visible(apps, filter, search, sort)| <= |apps|
    ensures filter == AllStatuses && Trim(search) == [] ==>
      multiset(Visible(apps, filter, search, sort)) == multiset(apps)
  {
    var r := Visible(apps, filter, search, sort);
    var kept := multiset(r);
    assert kept <= multiset(apps);
    if filter == AllStatuses && Trim(search) == [] {
      assert forall a :: kept[a] == multiset(apps)[a];
    }
  }

  /** The server lists only pending applications, so the `approved` and
      `rejected` filters always show an empty list. */
  lemma DecidedFiltersShowNothing(apps: seq<Doc<Application>>, status: ApplicationStatus, search: string, sort: SortOption)
    requires forall i :: 0 <= i < |apps| ==> apps[i].val.status == Pending
    requires status != Pending
    ensures Visible(apps, OnlyStatus(status), search, sort) == []
  {
    var r := Visible(apps, OnlyStatus(status), search, sort);
    forall a | a in apps
      ensures a.val.status == Pending
    {
      var i :| 0 <= i < |apps| && apps[i] == a;
    }
    assert multiset(r) == multiset{};
  }

  /** The test `x => x._id !== id`. */
  function IdIsNot<T>(id: Id): Doc<T> -> bool {
    (d: Doc<T>) => d.id != id
  }

  /** `list.filter(x => x._id !== id)`: drops every entry with that id and
      keeps the rest. */
  function WithoutId<T(!new)>(list: seq<Doc<T>>, id: Id): (r: seq<Doc<T>>)
    ensures forall d :: multiset(r)[d] == if d.id == id then 0 else multiset(list)[d]
    ensures forall d :: d in r ==> d.id != id
  {
    Lists.Filter(list, IdIsNot(id))
  }

  /** The kept entries keep their places: whatever stood before a kept entry
      still stands before it, and whatever stood after it still stands after. */
  lemma WithoutIdKeepsOrder<T(!new)>(list: seq<Doc<T>>, k: nat, id: Id)
    requires k < |list| && list[k].id != id
    ensures WithoutId(list, id) == WithoutId(list[..k], id) + [list[k]] + WithoutId(list[k + 1..], id)
  {
    assert list == list[..k] + ([list[k]] + list[k + 1..]);
    Lists.FilterAppend(list[..k], [list[k]] + list[k + 1..], IdIsNot(id));
    Lists.FilterAppend([list[k]], list[k + 1..], IdIsNot(id));
  }

  /** The component state. */
  class Dashboard {
    var campaigns: seq<Doc<Campaign>>
    var applications: seq<Doc<Application>>
    var notes: map<Id, string>
    var deleteError: Option<string>
    var filterStatus: StatusFilter
    var search: string
    var sortBy: SortOption

    /** The initial `useState` values. */
    constructor ()
      ensures campaigns == [] && applications == [] && notes == map[] && deleteError == None
      ensures filterStatus == AllStatuses && search == "" && sortBy == DateDesc
    {
      campaigns, applications, notes, deleteError := [], [], map[], None;
      filterStatus, search, sortBy := AllStatuses, "", DateDesc;
    }

    /** The list the applications column shows. */
    function Listed(): seq<Doc<Application>>
      reads this
    {
      Visible(applications, filterStatus, search, sortBy)
    }

    /** The applications fetch: replaces the list and rebuilds the notes
      map from it, one entry per id, the last occurrence winning. */
    method LoadApplications(data: seq<Doc<Application>>)
      modifies this
      ensures applications == data
      ensures notes.Keys == set i | 0 <= i < |data| :: data[i].id
      ensures forall i :: 0 <= i < |data| && (forall j :: i < j < |data| ==> data[j].id != data[i].id) ==>
                notes[data[i].id] == data[i].val.adminNotes
      ensures campaigns == old(campaigns) && deleteError == old(deleteError)
      ensures filterStatus == old(filterStatus) && search == old(search) && sortBy == old(sortBy)
    {
      applications := data;
      var m: map<Id, string> := map[];
      var k := 0;
      while k < |data|
        invariant 0 <= k <= |data|
        invariant m.Keys == set i | 0 <= i < k :: data[i].id
        invariant forall i :: 0 <= i < k && (forall j :: i < j < k ==> data[j].id != data[i].id) ==>
                    m[data[i].id] == data[i].val.adminNotes
      {
        m := m[data[k].id := data[k].val.adminNotes];
        k := k + 1;
      }
      notes := m;
    }

    /** `handleDelete`: clears the error; without confirmation nothing else
      happens; a successful request drops exactly that campaign from the
      list; a failed one keeps the list and shows the error. */
    method HandleDelete(id: Id, confirmed: bool, deleted: bool)
      modifies this
      ensures !confirmed ==> campaigns == old(campaigns) && deleteError == None
      ensures confirmed && deleted ==> campaigns == WithoutId(old(campaigns), id) && deleteError == None
      ensures confirmed && !deleted ==>
        campaigns == old(campaigns) && deleteError == Some("Failed to delete campaign")
      ensures applications == old(applications) && notes == old(notes)
      ensures filterStatus == old(filterStatus) && search == old(search) && sortBy == old(sortBy)
    {
      deleteError := None;
      if !confirmed {
        return;
      }
      if deleted {
        campaigns := WithoutId(campaigns, id);
      } else {
        deleteError := Some("Failed to delete campaign");
      }
    }

    /** The Approve and Reject buttons: once the request has completed,
      whatever its HTTP status, the application leaves the list. When the
      request itself rejects (`completed` false), nothing catches it and the
      list stays as it was. */
    method Decide(id: Id, completed: bool)
      modifies this
      ensures completed ==> applications == WithoutId(old(applications), id)
      ensures !completed ==> applications == old(applications)
      ensures campaigns == old(campaigns) && notes == old(notes) && deleteError == old(deleteError)
      ensures filterStatus == old(filterStatus) && search == old(search) && sortBy == old(sortBy)
    {
      if completed {
        applications := WithoutId(applications, id);
      }
    }

    /** Typing in a notes box: only that application's entry changes (the
      delayed save is not modelled). */
    method EditNotes(id: Id, text: string)
      modifies this
      ensures notes == old(notes)[id := text]
      ensures campaigns == old(campaigns) && applications == old(applications)
      ensures deleteError == old(deleteError)
      ensures filterStatus == old(filterStatus) && search == old(search) && sortBy == old(sortBy)
    {
      notes := notes[id := text];
    }

    /** The three controls. */
    method SetView(filter: StatusFilter, query: string, sort: SortOption)
      modifies this
      ensures filterStatus == filter && search == query && sortBy == sort
      ensures campaigns == old(campaigns) && applications == old(applications)
      ensures notes == old(notes) && deleteError == old(deleteError)
    {
      filterStatus, search, sortBy := filter, query, sort;
    }
  }
}
