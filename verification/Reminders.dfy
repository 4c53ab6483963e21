// Timed reminders (internal/notify/timed.go) and the mark they move
// (internal/store/taskdue.go): each wake-up claims the window since the last,
// so the windows tile time whatever the clock does, and a task is reminded at
// its moment once.
module Reminders {
  import opened TextOrder
  import opened Values

  /** Nanoseconds in a minute. */
  const MINUTE := 60_000_000_000

  /** An open task due on some day; an empty time is none. */
  datatype DueTask = DueTask(id: string, trip: string, dueDate: string, dueTime: string, assignee: string)

  datatype Member = Member(user: string, displayName: string)

  datatype Reminder = Reminder(user: string, trip: string, task: string, time: string)

  /** (from, to], in text order. */
  datatype Window = Window(from: string, to: string)

  /** One wake-up: the server's day and minute, and the tasks due that day unless the lookup fails. */
  datatype Wake = Wake(day: string, minute: string, found: Option<seq<DueTask>>) {
    function Moment(): string {
      MomentOf(day, minute)
    }
  }

  function MomentOf(day: string, minute: string): string {
    day + " " + minute
  }

  /** The next whole minute after `now`. */
  function NextTick(now: int): (tick: int)
    ensures now < tick <= now + MINUTE && tick % MINUTE == 0
  {
    now / MINUTE * MINUTE + MINUTE
  }

  /** Moments compare day first, then minute. */
  lemma MomentsInOrder(day: string, minute: string, day': string, minute': string)
    requires |day| == |day'|
    ensures Before(MomentOf(day, minute), MomentOf(day', minute')) <==>
      Before(day, day') || (day == day' && Before(minute, minute'))
  {
    assert MomentOf(day, minute) == day + (" " + minute) && MomentOf(day', minute') == day' + (" " + minute');
    Parts(day, day', " " + minute, " " + minute');
    Parts(" ", " ", minute, minute');
    Irreflexive(" ");
  }

  // ------------------------------------------------------------------- the mark

  /** The mark after a wake-up at `to`, and the window the wake-up may send for. */
  function Advanced(mark: Option<string>, to: string): (Option<string>, Option<Window>) {
    if mark.Some? && !Before(mark.value, to) then (mark, None)
    else (Some(to), if mark.Some? && mark.value != "" then Some(Window(mark.value, to)) else None)
  }

  function MarkAfter(wakes: seq<Wake>): Option<string> {
    if wakes == [] then None else Advanced(MarkAfter(wakes[..|wakes| - 1]), wakes[|wakes| - 1].Moment()).0
  }

  /** The window wake-up `i` claims. */
  function Claimed(wakes: seq<Wake>, i: nat): Option<Window>
    requires i < |wakes|
  {
    Advanced(MarkAfter(wakes[..i]), wakes[i].Moment()).1
  }

  predicate Inside(w: Window, moment: string) {
    Before(w.from, moment) && AtMost(moment, w.to)
  }

  // ------------------------------------------------------------------- the plan

  function DisplayNameOf(members: seq<Member>, user: string): string {
    if members == [] then ""
    else if members[0].user == user then members[0].displayName
    else DisplayNameOf(members[1..], user)
  }

  function Users(members: seq<Member>): (users: seq<string>)
    ensures |users| == |members| && forall i | 0 <= i < |users| :: users[i] == members[i].user
  {
    seq(|members|, i requires 0 <= i < |members| => members[i].user)
  }

  /** The assignee, or everybody when nobody is named or the named one has left. */
  function Recipients(assignee: string, members: seq<Member>): seq<string> {
    if assignee != "" && DisplayNameOf(members, assignee) != "" then [assignee] else Users(members)
  }

  /** The task's moment is today's and lies in the window. */
  predicate FallsDue(t: DueTask, today: string, w: Window) {
    t.dueDate == today && t.dueTime != "" && Inside(w, MomentOf(today, t.dueTime))
  }

  /** Everybody to be told, task by task. */
  function PlanOf(tasks: seq<DueTask>, today: string, w: Window, members: string -> seq<Member>): seq<Reminder> {
    if tasks == [] then []
    else
      var t := tasks[|tasks| - 1];
      PlanOf(tasks[..|tasks| - 1], today, w, members) +
        if FallsDue(t, today, w) then Told(t, Recipients(t.assignee, members(t.trip))) else []
  }

  function Told(t: DueTask, users: seq<string>): (r: seq<Reminder>)
    ensures |r| == |users| && forall i | 0 <= i < |r| :: r[i] == Reminder(users[i], t.trip, t.id, t.dueTime)
  {
    seq(|users|, i requires 0 <= i < |users| => Reminder(users[i], t.trip, t.id, t.dueTime))
  }

  /** Somebody is reminded of a task exactly when it falls due and they are among its recipients. */
  lemma {:induction false} PlannedExactly(tasks: seq<DueTask>, today: string, w: Window, members: string -> seq<Member>, r: Reminder)
    ensures r in PlanOf(tasks, today, w, members) <==>
      exists t :: t in tasks && FallsDue(t, today, w) && r.trip == t.trip && r.task == t.id && r.time == t.dueTime &&
                  r.user in Recipients(t.assignee, members(t.trip))
  {
    if tasks != [] {
      var front, t := tasks[..|tasks| - 1], tasks[|tasks| - 1];
      PlannedExactly(front, today, w, members, r);
      assert tasks == front + [t];
      var users := Recipients(t.assignee, members(t.trip));
      if r.user in users && r.trip == t.trip && r.task == t.id && r.time == t.dueTime {
        var i :| 0 <= i < |users| && users[i] == r.user;
        assert Told(t, users)[i] == r;
      }
    }
  }

  /** The first of the members with that id. */
  predicate FirstOf(members: seq<Member>, user: string, i: int) {
    0 <= i < |members| && members[i].user == user && forall j | 0 <= j < i :: members[j].user != user
  }

  /** A member by that id, with a name: the first listed of them counts. */
  ghost predicate Known(members: seq<Member>, user: string) {
    exists i :: FirstOf(members, user, i) && members[i].displayName != ""
  }

  lemma {:induction false} KnownExactly(members: seq<Member>, user: string)
    ensures DisplayNameOf(members, user) != "" <==> Known(members, user)
  {
    if members != [] && members[0].user == user {
      assert FirstOf(members, user, 0);
    } else if members != [] {
      KnownExactly(members[1..], user);
      if i :| FirstOf(members[1..], user, i) && members[1..][i].displayName != "" { assert FirstOf(members, user, i + 1); }
      if i :| FirstOf(members, user, i) && members[i].displayName != "" { assert FirstOf(members[1..], user, i - 1); }
    }
  }

  /** The recipients are the trip's members, and of those its assignee alone where that is one of them. */
  lemma RecipientsExactly(assignee: string, members: seq<Member>, user: string)
    ensures user in Recipients(assignee, members) <==>
      && (exists i :: 0 <= i < |members| && members[i].user == user)
      && (assignee != "" && Known(members, assignee) ==> user == assignee)
  {
    KnownExactly(members, assignee);
    if i :| 0 <= i < |members| && members[i].user == user { assert Users(members)[i] == user; }
  }

  /** A window that starts before the day is cut at the day's start; the cut never decides. */
  lemma CutIsIdle(t: DueTask, today: string, w: Window)
    requires t.dueDate == today
    ensures FallsDue(t, today, Window(if Before(w.from, today + " ") then today + " " else w.from, w.to)) <==> FallsDue(t, today, w)
  {
    if t.dueTime != "" {
      assert MomentOf(today, t.dueTime) == (today + " ") + t.dueTime && (today + " ") + "" == today + " ";
      Parts(today + " ", today + " ", "", t.dueTime);
      if Before(w.from, today + " ") { Transitive(w.from, today + " ", MomentOf(today, t.dueTime)); }
    }
  }

  // ------------------------------------------------------------------ as it runs

  class Notifier {
    var mark: Option<string>

    constructor ()
      ensures mark == None
    {
      mark := None;
    }

    /** Where the mark stood; not ok when there is nothing to send for. */
    method AdvanceTimedReminderMark(to: string) returns (from: string, ok: bool)
      modifies this
      ensures mark == Advanced(old(mark), to).0
      ensures ok == Advanced(old(mark), to).1.Some?
      ensures ok ==> Advanced(old(mark), to).1 == Some(Window(from, to))
    {
      from := "";
      if mark.Some? {
        from := mark.value;
        if !Before(from, to) { return from, false; }
      }
      mark := Some(to);
      ok := from != "";
    }

    /** What one wake-up sends: its window's tasks, or nothing. */
    method RemindTimed(wake: Wake, members: string -> seq<Member>) returns (plan: seq<Reminder>)
      modifies this
      ensures mark == Advanced(old(mark), wake.Moment()).0
      ensures plan ==
        var w := Advanced(old(mark), wake.Moment()).1;
        if w.Some? && wake.found.Some? then PlanOf(wake.found.value, wake.day, w.value, members) else []
    {
      var to := wake.Moment();
      var from, ok := AdvanceTimedReminderMark(to);
      if !ok || wake.found.None? { return []; }
      plan := PlanTimedTaskDue(wake.found.value, wake.day, from, to, members);
    }
  }

  /** `planTimedTaskDue`, its window cut at the day's start as the source cuts it. */
  method PlanTimedTaskDue(tasks: seq<DueTask>, today: string, from0: string, to: string, members: string -> seq<Member>)
    returns (plan: seq<Reminder>)
    ensures plan == PlanOf(tasks, today, Window(from0, to), members)
  {
    var from := if Before(from0, today + " ") then today + " " else from0;
    plan := [];
    for n := 0 to |tasks|
      invariant plan == PlanOf(tasks[..n], today, Window(from0, to), members)
    {
      var t := tasks[n];
      assert tasks[..n + 1][..n] == tasks[..n];
      if t.dueDate == today {
        CutIsIdle(t, today, Window(from0, to));
        Total(MomentOf(today, t.dueTime), from);
        Total(MomentOf(today, t.dueTime), to);
      }
      if t.dueDate != today || t.dueTime == "" { continue; }
      var moment := today + " " + t.dueTime;
      if AtMost(moment, from) || Before(to, moment) { continue; }
      var users := Recipients(t.assignee, members(t.trip));
      ghost var before := plan;
      for i := 0 to |users|
        invariant plan == before + Told(t, users[..i])
      {
        plan := plan + [Reminder(users[i], t.trip, t.id, t.dueTime)];
        assert Told(t, users[..i]) + [Reminder(users[i], t.trip, t.id, t.dueTime)] == Told(t, users[..i + 1]);
      }
      assert users[..|users|] == users;
    }
    assert tasks[..|tasks|] == tasks;
  }

  // --------------------------------------------------------------- over many runs

  lemma {:induction false} MarkRises(wakes: seq<Wake>, i: nat, j: nat)
    requires i <= j <= |wakes| && MarkAfter(wakes[..i]).Some?
    ensures MarkAfter(wakes[..j]).Some? && AtMost(MarkAfter(wakes[..i]).value, MarkAfter(wakes[..j]).value)
    decreases j
  {
    if i < j {
      MarkRises(wakes, i, j - 1);
      assert wakes[..j][..j - 1] == wakes[..j - 1];
      var a, b := MarkAfter(wakes[..i]).value, MarkAfter(wakes[..j - 1]).value;
      if a != b && Before(b, wakes[j - 1].Moment()) { Transitive(a, b, wakes[j - 1].Moment()); }
    }
  }

  /** A window starts where the mark stood and ends where it stands now. */
  lemma WindowIsMark(wakes: seq<Wake>, i: nat)
    requires i < |wakes| && Claimed(wakes, i).Some?
    ensures MarkAfter(wakes[..i]) == Some(Claimed(wakes, i).value.from)
    ensures MarkAfter(wakes[..i + 1]) == Some(Claimed(wakes, i).value.to) && Claimed(wakes, i).value.to == wakes[i].Moment()
    ensures Before(Claimed(wakes, i).value.from, Claimed(wakes, i).value.to)
  {
    assert wakes[..i + 1][..i] == wakes[..i];
  }

  /** A later window starts no earlier than an earlier one ends, whatever the clock did. */
  lemma WindowsAreDisjoint(wakes: seq<Wake>, i: nat, j: nat)
    requires i < j < |wakes| && Claimed(wakes, i).Some? && Claimed(wakes, j).Some?
    ensures AtMost(Claimed(wakes, i).value.to, Claimed(wakes, j).value.from)
  {
    WindowIsMark(wakes, i);
    WindowIsMark(wakes, j);
    MarkRises(wakes, i + 1, j);
  }

  /** A wake-up that claims nothing leaves a mark that was set alone. */
  lemma {:induction false} UnclaimedKeepsMark(wakes: seq<Wake>, i: nat, j: nat)
    requires i <= j <= |wakes| && MarkAfter(wakes[..i]).Some? && MarkAfter(wakes[..i]) != Some("")
    requires forall n: nat | i <= n < j :: Claimed(wakes, n).None?
    ensures MarkAfter(wakes[..j]) == MarkAfter(wakes[..i])
    decreases j
  {
    if i < j {
      UnclaimedKeepsMark(wakes, i, j - 1);
      assert wakes[..j][..j - 1] == wakes[..j - 1];
      assert Claimed(wakes, j - 1).None?;
    }
  }

  /** And the next one starts exactly there: the windows tile time. */
  lemma WindowsAreConsecutive(wakes: seq<Wake>, i: nat, j: nat)
    requires i < j < |wakes| && Claimed(wakes, i).Some? && Claimed(wakes, j).Some?
    requires forall n: nat | i < n < j :: Claimed(wakes, n).None?
    ensures Claimed(wakes, j).value.from == Claimed(wakes, i).value.to
  {
    WindowIsMark(wakes, i);
    WindowIsMark(wakes, j);
    assert wakes[i].Moment() != "";
    UnclaimedKeepsMark(wakes, i + 1, j);
  }

  /** Wake-up `i` finds its tasks, and the task falls due in the window it claims. */
  predicate Sends(wakes: seq<Wake>, i: nat, t: DueTask)
    requires i < |wakes|
  {
    wakes[i].found.Some? && Claimed(wakes, i).Some? && FallsDue(t, wakes[i].day, Claimed(wakes, i).value)
  }

  /** Two windows that do not meet hold no moment both. */
  lemma NotTwice(v: Window, w: Window, moment: string)
    requires AtMost(v.to, w.from)
    ensures !(Inside(v, moment) && Inside(w, moment))
  {
    if Inside(v, moment) && Inside(w, moment) {
      Total(moment, v.to);
      Total(moment, w.from);
      if moment != v.to && v.to != w.from { Transitive(moment, v.to, w.from); }
    }
  }

  /** A task with a fixed day and time is reminded at most once. */
  lemma RemindedAtMostOnce(wakes: seq<Wake>, i: nat, j: nat, t: DueTask)
    requires i < |wakes| && j < |wakes| && Sends(wakes, i, t) && Sends(wakes, j, t)
    ensures i == j
  {
    var a, b := if i < j then i else j, if i < j then j else i;
    if a < b {
      WindowsAreDisjoint(wakes, a, b);
      NotTwice(Claimed(wakes, a).value, Claimed(wakes, b).value, MomentOf(t.dueDate, t.dueTime));
    }
  }

  /** The first wake-up at or after a moment. */
  predicate FirstFrom(wakes: seq<Wake>, i: nat, moment: string) {
    i < |wakes| && !Before(wakes[i].Moment(), moment) && forall j | 0 <= j < i :: Before(wakes[j].Moment(), moment)
  }

  /** The mark is below a moment as long as every wake-up was. */
  lemma {:induction false} MarkStaysBelow(wakes: seq<Wake>, n: nat, moment: string)
    requires 0 < n <= |wakes|
    ensures MarkAfter(wakes[..n]).Some?
    ensures Before(MarkAfter(wakes[..n]).value, moment) <==> forall j | 0 <= j < n :: Before(wakes[j].Moment(), moment)
  {
    assert wakes[..n][..n - 1] == wakes[..n - 1];
    if n > 1 {
      MarkStaysBelow(wakes, n - 1, moment);
      var mark, to := MarkAfter(wakes[..n - 1]).value, wakes[n - 1].Moment();
      Total(mark, to);
      Total(to, moment);
      Total(mark, moment);
      if Before(mark, to) && Before(to, moment) { Transitive(mark, to, moment); }
      if !Before(mark, to) && mark != to && Before(mark, moment) { Transitive(to, mark, moment); }
    }
  }

  /** A wake-up's window holds a moment exactly when it is the first at or after it, and not the first of all. */
  lemma HeldExactly(wakes: seq<Wake>, i: nat, moment: string)
    requires i < |wakes|
    ensures Claimed(wakes, i).Some? && Inside(Claimed(wakes, i).value, moment) <==> i > 0 && FirstFrom(wakes, i, moment)
  {
    if i > 0 {
      MarkStaysBelow(wakes, i, moment);
      var mark, to := MarkAfter(wakes[..i]).value, wakes[i].Moment();
      Total(to, moment);
      Total(mark, to);
      Total(mark, moment);
      if Before(mark, moment) && !Before(to, moment) {
        if to != moment { Transitive(mark, moment, to); }
      }
      MarkIsMoment(wakes, i);
    } else {
      assert wakes[..0] == [];
    }
  }

  /** A mark that was set is some wake-up's moment, so it is not empty. */
  lemma {:induction false} MarkIsMoment(wakes: seq<Wake>, n: nat)
    requires 0 < n <= |wakes|
    ensures MarkAfter(wakes[..n]).Some? && MarkAfter(wakes[..n]).value != ""
  {
    assert wakes[..n][..n - 1] == wakes[..n - 1] && wakes[n - 1].Moment() != "";
    if n > 1 { MarkIsMoment(wakes, n - 1); }
  }

  /** It is reminded exactly when the mark was set before its moment, and the first wake-up from it on falls on its
      day and finds its tasks. */
  lemma RemindedExactly(wakes: seq<Wake>, t: DueTask)
    requires t.dueTime != ""
    ensures (exists i: nat :: i < |wakes| && Sends(wakes, i, t)) <==>
      exists i: nat :: i > 0 && FirstFrom(wakes, i, MomentOf(t.dueDate, t.dueTime)) && wakes[i].day == t.dueDate && wakes[i].found.Some?
  {
    forall i: nat | i < |wakes|
      ensures Sends(wakes, i, t) <==>
        i > 0 && FirstFrom(wakes, i, MomentOf(t.dueDate, t.dueTime)) && wakes[i].day == t.dueDate && wakes[i].found.Some?
    {
      HeldExactly(wakes, i, MomentOf(t.dueDate, t.dueTime));
    }
  }
}
