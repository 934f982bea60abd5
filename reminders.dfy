/** The reminders store (src/stores/reminders.ts): five task lists mirrored from
    the reminders service, the time of the last synchronisation, the derived
    counts and "upcoming" view, and the fetch and sync actions. */
module Reminders {
  import opened Common
  import opened Seqs

  datatype Priority = NoPriority | Low | Medium | High

  datatype ListName = Inbox | Next | Waiting | Someday | Projects

  datatype Reminder = Reminder(
    id: string,
    title: string,
    notes: Option<string>,
    dueDate: Option<string>,
    priority: Priority,
    completed: bool,
    list: ListName,
    createdAt: string,
    updatedAt: string)

  /** The response of the sync endpoint. */
  datatype SyncResult = SyncResult(synced: bool, lastSynced: string)

  /** Getter `listCounts`. */
  datatype ListCounts = ListCounts(inbox: nat, next: nat, waiting: nat, someday: nat, projects: nat)

  /** How many reminders `upcomingReminders` shows at most. */
  const UpcomingLimit := 5

  /** A list's value in the all-lists response, empty when the key is absent. */
  function ListOrEmpty(data: map<string, seq<Reminder>>, key: string): (r: seq<Reminder>)
    ensures key in data ==> r == data[key]
    ensures key !in data ==> r == []
  {
    if key in data then data[key] else []
  }

  /** Getter `allReminders`: the five lists one after the other, inbox first. */
  function AllReminders(inbox: seq<Reminder>, next: seq<Reminder>, waiting: seq<Reminder>,
                        someday: seq<Reminder>, projects: seq<Reminder>): (r: seq<Reminder>)
    ensures |r| == |inbox| + |next| + |waiting| + |someday| + |projects|
    ensures r[..|inbox|] == inbox && r[|r| - |projects|..] == projects
    ensures forall i :: 0 <= i < |next| ==> r[|inbox| + i] == next[i]
  {
    inbox + next + waiting + someday + projects
  }

  /** Getter `totalCount`: the length of `allReminders`. */
  function TotalCount(inbox: seq<Reminder>, next: seq<Reminder>, waiting: seq<Reminder>,
                      someday: seq<Reminder>, projects: seq<Reminder>): (n: nat)
    ensures n == 0 <==> inbox == [] && next == [] && waiting == [] && someday == [] && projects == []
  {
    |AllReminders(inbox, next, waiting, someday, projects)|
  }

  function Counts(inbox: seq<Reminder>, next: seq<Reminder>, waiting: seq<Reminder>,
                  someday: seq<Reminder>, projects: seq<Reminder>): (r: ListCounts)
    ensures r.inbox == |inbox| && r.next == |next| && r.waiting == |waiting|
    ensures r.someday == |someday| && r.projects == |projects|
  {
    ListCounts(|inbox|, |next|, |waiting|, |someday|, |projects|)
  }

  /** The total is the sum of the five per-list counts. */
  lemma TotalIsSumOfCounts(inbox: seq<Reminder>, next: seq<Reminder>, waiting: seq<Reminder>,
                           someday: seq<Reminder>, projects: seq<Reminder>)
    ensures var c := Counts(inbox, next, waiting, someday, projects);
      TotalCount(inbox, next, waiting, someday, projects) ==
      c.inbox + c.next + c.waiting + c.someday + c.projects
  {
  }

  function Incomplete(r: Reminder): bool
  {
    !r.completed
  }

  /** Getter `upcomingReminders`: the first five incomplete reminders of `next`. */
  function UpcomingReminders(next: seq<Reminder>): (r: seq<Reminder>)
    ensures |r| <= UpcomingLimit
    ensures forall i :: 0 <= i < |r| ==> r[i] in next && !r[i].completed
    ensures r <= Filter(next, Incomplete)
    ensures |r| < UpcomingLimit ==> r == Filter(next, Incomplete)
  {
    var open := Filter(next, Incomplete);
    FilterMembers(next, Incomplete);
    if |open| <= UpcomingLimit then open else open[..UpcomingLimit]
  }

  /** When `next` holds fewer than five incomplete reminders, all of them are
      upcoming; with five or more, exactly five are. */
  lemma {:induction false} UpcomingSize(next: seq<Reminder>)
    ensures |UpcomingReminders(next)| == if CountIncomplete(next) < UpcomingLimit then CountIncomplete(next) else UpcomingLimit
  {
    IncompleteCount(next);
  }

  /** The number of incomplete reminders, counted one by one. */
  function CountIncomplete(s: seq<Reminder>): nat
  {
    if s == [] then 0 else (if s[0].completed then 0 else 1) + CountIncomplete(s[1..])
  }

  lemma {:induction false} IncompleteCount(s: seq<Reminder>)
    ensures |Filter(s, Incomplete)| == CountIncomplete(s)
  {
    if s != [] {
      IncompleteCount(s[1..]);
    }
  }

  /** The reminders store's state. */
  class RemindersStore {
    var inbox: seq<Reminder>
    var next: seq<Reminder>
    var waiting: seq<Reminder>
    var someday: seq<Reminder>
    var projects: seq<Reminder>
    var loading: bool
    var lastSynced: Option<string>

    constructor ()
      ensures inbox == [] && next == [] && waiting == [] && someday == [] && projects == []
      ensures !loading && lastSynced.None?
    {
      inbox, next, waiting, someday, projects := [], [], [], [], [];
      loading := false;
      lastSynced := None;
    }

    /** `getRemindersByList`: the list with that name; any other name, including
        one outside the five, gives the empty sequence. */
    function GetRemindersByList(list: string): (r: seq<Reminder>)
      reads this
      ensures list == "inbox" ==> r == inbox
      ensures list == "next" ==> r == next
      ensures list == "waiting" ==> r == waiting
      ensures list == "someday" ==> r == someday
      ensures list == "projects" ==> r == projects
      ensures list !in {"inbox", "next", "waiting", "someday", "projects"} ==> r == []
    {
      match list
      case "inbox" => inbox
      case "next" => next
      case "waiting" => waiting
      case "someday" => someday
      case "projects" => projects
      case _ => []
    }

    /** `fetchAllReminders`: each list takes the response's value for its key, or
        empty when the key is missing; on failure no list changes. */
    method FetchAllReminders(fetched: Remote<map<string, seq<Reminder>>>)
      modifies this
      ensures fetched.Ok? ==>
        && inbox == ListOrEmpty(fetched.value, "inbox")
        && next == ListOrEmpty(fetched.value, "next")
        && waiting == ListOrEmpty(fetched.value, "waiting")
        && someday == ListOrEmpty(fetched.value, "someday")
        && projects == ListOrEmpty(fetched.value, "projects")
      ensures fetched.Fail? ==>
        inbox == old(inbox) && next == old(next) && waiting == old(waiting) &&
        someday == old(someday) && projects == old(projects)
      ensures !loading && lastSynced == old(lastSynced)
    {
      loading := true;
      if fetched.Ok? {
        var data := fetched.value;
        inbox := ListOrEmpty(data, "inbox");
        next := ListOrEmpty(data, "next");
        waiting := ListOrEmpty(data, "waiting");
        someday := ListOrEmpty(data, "someday");
        projects := ListOrEmpty(data, "projects");
      }
      loading := false;
    }

    /** `syncWithApple`: record the sync time, then refetch every list; a failed
        refetch is swallowed. A failed sync changes nothing and is rethrown. */
    method SyncWithApple(synced: Remote<SyncResult>, refetched: Remote<map<string, seq<Reminder>>>)
      returns (c: Completion<()>)
      modifies this
      ensures synced.Ok? ==> c == Returned(()) && lastSynced == Some(synced.value.lastSynced)
      ensures synced.Ok? && refetched.Ok? ==>
        && inbox == ListOrEmpty(refetched.value, "inbox")
        && next == ListOrEmpty(refetched.value, "next")
        && waiting == ListOrEmpty(refetched.value, "waiting")
        && someday == ListOrEmpty(refetched.value, "someday")
        && projects == ListOrEmpty(refetched.value, "projects")
      ensures synced.Fail? || refetched.Fail? ==>
        inbox == old(inbox) && next == old(next) && waiting == old(waiting) &&
        someday == old(someday) && projects == old(projects)
      ensures synced.Fail? ==> c == Threw(synced.message) && lastSynced == old(lastSynced)
      ensures !loading
    {
      loading := true;
      if synced.Fail? {
        c := Threw(synced.message);
      } else {
        lastSynced := Some(synced.value.lastSynced);
        FetchAllReminders(refetched);
        c := Returned(());
      }
      loading := false;
    }
  }

  /** `allReminders` is the five lists read back by name, in their fixed order. */
  lemma AllRemindersByName(store: RemindersStore)
    ensures AllReminders(store.inbox, store.next, store.waiting, store.someday, store.projects) ==
      store.GetRemindersByList("inbox") + store.GetRemindersByList("next") +
      store.GetRemindersByList("waiting") + store.GetRemindersByList("someday") +
      store.GetRemindersByList("projects")
  {
  }
}
