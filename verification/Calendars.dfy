/** Personal tasks on calendar dates: the weekly generation of project tasks, and the automatic breaks. */
module Calendars {
  import opened Wrappers

  /** Dates are day ordinals (day 1 is a Monday), times of day are minutes. */
  const DAY: int := 1440
  const BREAK: int := 10
  const LONG_TASK: int := 60

  datatype Slot = Slot(date: int, start: int, end: int)

  datatype Entry = Entry(slot: Slot, isBreak: bool, parent: Option<nat>)

  /** The stored tasks by id; `nextId` is the id the database gives next. */
  datatype Calendar = Calendar(entries: map<nat, Entry>, nextId: nat)

  ghost predicate Valid(c: Calendar) {
    forall id | id in c.entries :: id < c.nextId
  }

  function Added(c: Calendar, e: Entry): Calendar {
    Calendar(c.entries[c.nextId := e], c.nextId + 1)
  }

  /** The conflict test of the views: same date, and each starts before the other ends. */
  predicate Clash(a: Slot, b: Slot) {
    a.date == b.date && a.start < b.end && a.end > b.start
  }

  predicate Covers(a: Slot, minute: int) {
    a.start <= minute < a.end
  }

  /** For slots that end after they start, a clash is a common minute. */
  lemma ClashIsCommonMinute(a: Slot, b: Slot)
    requires a.start < a.end && b.start < b.end
    ensures Clash(a, b) <==> a.date == b.date && exists m :: Covers(a, m) && Covers(b, m)
  {
    if Clash(a, b) {
      var m := if a.start < b.start then b.start else a.start;
      assert Covers(a, m) && Covers(b, m);
    }
  }

  // ---------------------------------------------------------------------------------------------
  // The weekly recurrence

  datatype Schedule = Schedule(dayOfWeek: int, start: int, duration: int, weeks: nat, isActive: bool)

  datatype ProjectTask = ProjectTask(id: nat, schedules: seq<Schedule>)

  datatype Project = Project(startDate: int, endDate: int, tasks: seq<ProjectTask>)

  function Weekday(date: int): int {
    (date + 6) % 7
  }

  /** The date that one round of the loop visits. */
  function Target(p: Project, s: Schedule, current: int): int {
    var daysAhead := (s.dayOfWeek - Weekday(current)) % 7;
    if daysAhead == 0 && current != p.startDate then current + 7 else current + daysAhead
  }

  /** The dates that the loop visits from `current` on, after `week` rounds. */
  function Visits(p: Project, s: Schedule, current: int, week: nat): seq<int>
    decreases s.weeks - week
  {
    if current > p.endDate || week >= s.weeks || Target(p, s, current) > p.endDate then []
    else [Target(p, s, current)] + Visits(p, s, Target(p, s, current) + 1, week + 1)
  }

  function FirstVisit(p: Project, s: Schedule): int {
    p.startDate + (s.dayOfWeek - Weekday(p.startDate)) % 7
  }

  function VisitCount(p: Project, s: Schedule): nat {
    var first := FirstVisit(p, s);
    if first > p.endDate then 0
    else if s.weeks <= (p.endDate - first) / 7 + 1 then s.weeks else (p.endDate - first) / 7 + 1
  }

  /** The day after a visit is never the weekday looked for, so the loop never adds a whole week. */
  lemma NextTarget(p: Project, s: Schedule, visited: int)
    requires Weekday(visited) == s.dayOfWeek % 7
    ensures (s.dayOfWeek - Weekday(visited + 1)) % 7 == 6
    ensures Target(p, s, visited + 1) == visited + 7 && Weekday(visited + 7) == s.dayOfWeek % 7
  {
  }

  /** Going on from x to the next number that is day of the week. */
  lemma NextSuchDay(x: int, day: int)
    ensures var ahead := (day - x % 7) % 7; 0 <= ahead < 7 && (x + ahead) % 7 == day % 7
  {
    var ahead := (day - x % 7) % 7;
    assert x + ahead == day + 7 * (x / 7 - (day - x % 7) / 7);
    WholeWeeks(day, x / 7 - (day - x % 7) / 7);
  }

  lemma WholeWeeks(day: int, weeks: int)
    ensures (day + 7 * weeks) % 7 == day % 7
  {
  }

  lemma FirstVisitIsThatDay(p: Project, s: Schedule)
    ensures Weekday(FirstVisit(p, s)) == s.dayOfWeek % 7 && p.startDate <= FirstVisit(p, s)
    ensures Target(p, s, p.startDate) == FirstVisit(p, s)
  {
    NextSuchDay(p.startDate + 6, s.dayOfWeek);
  }

  /** The loop visits the first such weekday from the start, and every seventh day after it. */
  lemma VisitsEverySeventhDay(p: Project, s: Schedule)
    ensures Visits(p, s, p.startDate, 0) == seq(VisitCount(p, s), k => FirstVisit(p, s) + 7 * k)
  {
    var first := FirstVisit(p, s);
    FirstVisitIsThatDay(p, s);
    if p.startDate <= p.endDate && s.weeks > 0 && first <= p.endDate {
      VisitsFrom(p, s, first, 1);
      assert Visits(p, s, p.startDate, 0) == [first] + Visits(p, s, first + 1, 1);
    }
  }

  lemma {:induction false} VisitsFrom(p: Project, s: Schedule, visited: int, week: nat)
    requires Weekday(visited) == s.dayOfWeek % 7 && visited <= p.endDate && week <= s.weeks
    ensures var count :=
              if s.weeks - week <= (p.endDate - visited) / 7 then s.weeks - week else (p.endDate - visited) / 7;
            Visits(p, s, visited + 1, week) == seq(count, k => visited + 7 * (k + 1))
    decreases s.weeks - week
  {
    NextTarget(p, s, visited);
    if week < s.weeks && visited + 7 <= p.endDate {
      VisitsFrom(p, s, visited + 7, week + 1);
      assert Visits(p, s, visited + 1, week) == [visited + 7] + Visits(p, s, visited + 8, week + 1);
    } else {
      assert Visits(p, s, visited + 1, week) == [];
    }
  }

  /** The slot for a date; the end time wraps at midnight. */
  function SlotOn(s: Schedule, date: int): Slot {
    Slot(date, s.start, (s.start + s.duration) % DAY)
  }

  function SlotsOn(s: Schedule, dates: seq<int>): seq<Slot> {
    seq(|dates|, i requires 0 <= i < |dates| => SlotOn(s, dates[i]))
  }

  /** The slots of a task's active schedules, and of the chosen tasks, in the order of the loops. */
  function SchedulesSlots(p: Project, schedules: seq<Schedule>): seq<Slot> {
    if schedules == [] then []
    else if schedules[0].isActive
    then SlotsOn(schedules[0], Visits(p, schedules[0], p.startDate, 0)) + SchedulesSlots(p, schedules[1..])
    else SchedulesSlots(p, schedules[1..])
  }

  function TasksSlots(p: Project, tasks: seq<ProjectTask>, chosen: set<nat>): seq<Slot> {
    if tasks == [] then []
    else if tasks[0].id in chosen then SchedulesSlots(p, tasks[0].schedules) + TasksSlots(p, tasks[1..], chosen)
    else TasksSlots(p, tasks[1..], chosen)
  }

  /** The number of visits that the closed form gives for the chosen tasks. */
  function SchedulesVisits(p: Project, schedules: seq<Schedule>): nat {
    if schedules == [] then 0 else
      (if schedules[0].isActive then VisitCount(p, schedules[0]) else 0) + SchedulesVisits(p, schedules[1..])
  }

  function TasksVisits(p: Project, tasks: seq<ProjectTask>, chosen: set<nat>): nat {
    if tasks == [] then 0 else
      (if tasks[0].id in chosen then SchedulesVisits(p, tasks[0].schedules) else 0) + TasksVisits(p, tasks[1..], chosen)
  }

  lemma {:induction false} SchedulesSlotsCount(p: Project, schedules: seq<Schedule>)
    ensures |SchedulesSlots(p, schedules)| == SchedulesVisits(p, schedules)
    decreases |schedules|
  {
    if schedules != [] {
      VisitsEverySeventhDay(p, schedules[0]);
      SchedulesSlotsCount(p, schedules[1..]);
    }
  }

  /** The loops visit as many slots as the closed form says. */
  lemma {:induction false} SlotsCount(p: Project, tasks: seq<ProjectTask>, chosen: set<nat>)
    ensures |TasksSlots(p, tasks, chosen)| == TasksVisits(p, tasks, chosen)
    decreases |tasks|
  {
    if tasks != [] {
      SchedulesSlotsCount(p, tasks[0].schedules);
      SlotsCount(p, tasks[1..], chosen);
    }
  }

  // ---------------------------------------------------------------------------------------------
  // What the sessions of a project are, without the loop

  /** The loop visits just the days of the schedule's weekday, in its first weeks and within the project. */
  lemma VisitedIff(p: Project, s: Schedule, day: int)
    ensures day in Visits(p, s, p.startDate, 0) <==>
            p.startDate <= day <= p.endDate && (day + 6) % 7 == s.dayOfWeek % 7 && day < p.startDate + 7 * s.weeks
  {
    var first, count := FirstVisit(p, s), VisitCount(p, s);
    var visits := Visits(p, s, p.startDate, 0);
    VisitsEverySeventhDay(p, s);
    FirstVisitIsThatDay(p, s);
    assert first < p.startDate + 7;
    if day in visits {
      var k :| 0 <= k < |visits| && visits[k] == day;
      assert day == first + 7 * k && k < s.weeks;
      WholeWeeks(first + 6, k);
      assert first + 6 + 7 * k == day + 6;
    }
    if p.startDate <= day <= p.endDate && (day + 6) % 7 == s.dayOfWeek % 7 && day < p.startDate + 7 * s.weeks {
      var k := SameDayOfWeek(p.startDate, first, day);
      assert k < count && visits[k] == day;
    }
  }

  /** A day from the start on that is the same day of the week as the first such day lies whole weeks after it. */
  lemma SameDayOfWeek(start: int, first: int, day: int) returns (k: nat)
    requires start <= first < start + 7 && start <= day && (first + 6) % 7 == (day + 6) % 7
    ensures day == first + 7 * k
  {
    var d := (day + 6) / 7 - (first + 6) / 7;
    assert day - first == 7 * d;
    k := d;
  }

  /** A session of the schedule: which day, from when, and until which minute of the day. */
  predicate IsSession(p: Project, s: Schedule, slot: Slot) {
    && s.isActive
    && p.startDate <= slot.date <= p.endDate && (slot.date + 6) % 7 == s.dayOfWeek % 7
    && slot.date < p.startDate + 7 * s.weeks
    && slot.start == s.start && 0 <= slot.end < 1440 && (s.start + s.duration - slot.end) % 1440 == 0
  }

  predicate IsTaskSession(p: Project, task: ProjectTask, slot: Slot) {
    exists j | 0 <= j < |task.schedules| :: IsSession(p, task.schedules[j], slot)
  }

  /** The slot is a session of one of the chosen tasks. */
  predicate IsAsked(p: Project, tasks: seq<ProjectTask>, chosen: set<nat>, slot: Slot) {
    exists i | 0 <= i < |tasks| :: tasks[i].id in chosen && IsTaskSession(p, tasks[i], slot)
  }

  /** The k-th session of an active schedule is seven days after the one before. */
  lemma KthSession(p: Project, s: Schedule, k: nat)
    requires k < VisitCount(p, s)
    ensures var slots := SlotsOn(s, Visits(p, s, p.startDate, 0));
            && |slots| == VisitCount(p, s) && slots[k].date == FirstVisit(p, s) + 7 * k
            && (s.isActive ==> IsSession(p, s, slots[k]))
  {
    VisitsEverySeventhDay(p, s);
    var day := FirstVisit(p, s) + 7 * k;
    assert Visits(p, s, p.startDate, 0)[k] == day;
    VisitedIff(p, s, day);
    EndWraps(s.start + s.duration);
  }

  lemma EndWraps(minutes: int)
    ensures 0 <= minutes % DAY < 1440 && (minutes - minutes % DAY) % 1440 == 0
  {
    assert minutes - minutes % 1440 == 1440 * (minutes / 1440);
    WholeDays(minutes / 1440);
  }

  lemma WholeDays(days: int)
    ensures (1440 * days) % 1440 == 0
  {
  }

  lemma SameEnd(minutes: int, end: int)
    requires 0 <= end < 1440 && (minutes - end) % 1440 == 0
    ensures end == minutes % DAY
  {
    assert minutes == end + 1440 * ((minutes - end) / 1440);
  }

  lemma ScheduleSlotIff(p: Project, s: Schedule, slot: Slot)
    requires s.isActive
    ensures slot in SlotsOn(s, Visits(p, s, p.startDate, 0)) <==> IsSession(p, s, slot)
  {
    var days := Visits(p, s, p.startDate, 0);
    var slots := SlotsOn(s, days);
    VisitedIff(p, s, slot.date);
    EndWraps(s.start + s.duration);
    if slot in slots {
      var k :| 0 <= k < |slots| && slots[k] == slot;
      assert slot.date == days[k];
    }
    if IsSession(p, s, slot) {
      SameEnd(s.start + s.duration, slot.end);
      var k :| 0 <= k < |days| && days[k] == slot.date;
      assert slots[k] == slot;
    }
  }

  lemma {:induction false} SchedulesSlotsIff(p: Project, schedules: seq<Schedule>, slot: Slot)
    ensures slot in SchedulesSlots(p, schedules) <==>
            exists j | 0 <= j < |schedules| :: IsSession(p, schedules[j], slot)
    decreases |schedules|
  {
    if schedules != [] {
      var rest := schedules[1..];
      SchedulesSlotsIff(p, rest, slot);
      if schedules[0].isActive {
        ScheduleSlotIff(p, schedules[0], slot);
      }
      if j :| 0 <= j < |rest| && IsSession(p, rest[j], slot) {
        assert schedules[j + 1] == rest[j];
      }
      if j :| 0 <= j < |schedules| && IsSession(p, schedules[j], slot) && !IsSession(p, schedules[0], slot) {
        assert rest[j - 1] == schedules[j];
      }
    }
  }

  /** The slots of a run are just the sessions of the active schedules of the chosen tasks. */
  lemma {:induction false} TasksSlotsIff(p: Project, tasks: seq<ProjectTask>, chosen: set<nat>, slot: Slot)
    ensures slot in TasksSlots(p, tasks, chosen) <==> IsAsked(p, tasks, chosen, slot)
    decreases |tasks|
  {
    if tasks != [] {
      var rest := tasks[1..];
      TasksSlotsIff(p, rest, chosen, slot);
      SchedulesSlotsIff(p, tasks[0].schedules, slot);
      if IsAsked(p, rest, chosen, slot) {
        var i :| 0 <= i < |rest| && rest[i].id in chosen && IsTaskSession(p, rest[i], slot);
        assert tasks[i + 1] == rest[i];
      }
      if IsAsked(p, tasks, chosen, slot) && !(tasks[0].id in chosen && IsTaskSession(p, tasks[0], slot)) {
        var i :| 0 <= i < |tasks| && tasks[i].id in chosen && IsTaskSession(p, tasks[i], slot);
        assert rest[i - 1] == tasks[i];
      }
    }
  }

  predicate HasActive(t: ProjectTask) {
    exists i | 0 <= i < |t.schedules| :: t.schedules[i].isActive
  }

  predicate Marks(t: ProjectTask, chosen: set<nat>, id: nat) {
    t.id == id && id in chosen && HasActive(t)
  }

  // ---------------------------------------------------------------------------------------------
  // Filling the calendar

  /** Some stored task that is no break clashes with the slot. */
  predicate Taken(c: Calendar, slot: Slot) {
    exists id | id in c.entries :: !c.entries[id].isBreak && Clash(c.entries[id].slot, slot)
  }

  datatype Outcome = Outcome(calendar: Calendar, created: nat, conflicts: seq<Slot>)

  function Placed(o: Outcome, slot: Slot): Outcome {
    if Taken(o.calendar, slot) then o.(conflicts := o.conflicts + [slot])
    else o.(calendar := Added(o.calendar, Entry(slot, false, None)), created := o.created + 1)
  }

  /** Placing the slots one after the other, each where nothing is in its way. */
  function Filled(o: Outcome, slots: seq<Slot>): Outcome
    decreases |slots|
  {
    if slots == [] then o else Filled(Placed(o, slots[0]), slots[1..])
  }

  lemma {:induction false} FilledInTwo(o: Outcome, first: seq<Slot>, second: seq<Slot>)
    ensures Filled(o, first + second) == Filled(Filled(o, first), second)
    decreases |first|
  {
    if first == [] {
      assert first + second == second;
    } else {
      assert (first + second)[1..] == first[1..] + second;
      FilledInTwo(Placed(o, first[0]), first[1..], second);
    }
  }

  lemma OneMoreVisit(o: Outcome, s: Schedule, date: int, rest: seq<int>)
    ensures Filled(o, SlotsOn(s, [date] + rest)) == Filled(Placed(o, SlotOn(s, date)), SlotsOn(s, rest))
  {
    assert SlotsOn(s, [date] + rest)[1..] == SlotsOn(s, rest);
  }

  /** No two stored tasks clash, breaks aside. */
  ghost predicate Apart(c: Calendar) {
    forall i, j | i in c.entries && j in c.entries && i != j && !c.entries[i].isBreak && !c.entries[j].isBreak ::
      !Clash(c.entries[i].slot, c.entries[j].slot)
  }

  /** `c` has everything that was stored before. */
  ghost predicate Extends(c: Calendar, before: Calendar) {
    forall id | id in before.entries :: id in c.entries && c.entries[id] == before.entries[id]
  }

  lemma PlacingKeepsApart(o: Outcome, slot: Slot)
    requires Valid(o.calendar)
    ensures var t := Placed(o, slot);
            && Valid(t.calendar)
            && (Apart(o.calendar) ==> Apart(t.calendar))
            && Extends(t.calendar, o.calendar)
  {
  }

  lemma PlacingCounts(o: Outcome, slot: Slot)
    requires Valid(o.calendar)
    ensures var t := Placed(o, slot);
            && t.created + |t.conflicts| == o.created + |o.conflicts| + 1
            && |t.calendar.entries| == |o.calendar.entries| + t.created - o.created
  {
    var t := Placed(o, slot);
    if !Taken(o.calendar, slot) {
      assert t.calendar.entries.Keys == o.calendar.entries.Keys + {o.calendar.nextId};
      assert |t.calendar.entries.Keys| == |o.calendar.entries.Keys| + 1;
    }
  }

  /** Filling keeps what was stored, keeps the tasks apart, and counts every slot once. */
  lemma {:induction false} FillingKeepsApart(o: Outcome, slots: seq<Slot>)
    requires Valid(o.calendar)
    ensures var t := Filled(o, slots);
            && Valid(t.calendar)
            && (Apart(o.calendar) ==> Apart(t.calendar))
            && Extends(t.calendar, o.calendar)
            && t.created + |t.conflicts| == o.created + |o.conflicts| + |slots|
            && |t.calendar.entries| == |o.calendar.entries| + t.created - o.created
    decreases |slots|
  {
    if slots != [] {
      PlacingKeepsApart(o, slots[0]);
      PlacingCounts(o, slots[0]);
      FillingKeepsApart(Placed(o, slots[0]), slots[1..]);
    }
  }

  /** `id` was stored since `before`, with this slot, as a task that is no break. */
  predicate IsNew(before: Calendar, c: Calendar, id: nat, slot: Slot) {
    id !in before.entries && id in c.entries && c.entries[id] == Entry(slot, false, None)
  }

  /** What is new in a calendar, or reported, was asked for; and what was asked for is new or reported. */
  lemma {:induction false} FillingMeans(o: Outcome, slots: seq<Slot>)
    requires Valid(o.calendar)
    ensures var t := Filled(o, slots);
            && (forall id | id in t.calendar.entries && id !in o.calendar.entries ::
                  exists slot | slot in slots :: t.calendar.entries[id] == Entry(slot, false, None))
            && (forall slot | slot in t.conflicts && slot !in o.conflicts :: slot in slots)
            && (forall slot | slot in slots ::
                  slot in t.conflicts || exists id :: IsNew(o.calendar, t.calendar, id, slot))
            && (forall slot | slot in o.conflicts :: slot in t.conflicts)
    decreases |slots|
  {
    if slots != [] {
      var next := Placed(o, slots[0]);
      PlacingKeepsApart(o, slots[0]);
      FillingMeans(next, slots[1..]);
      FillingKeepsApart(next, slots[1..]);
      var t := Filled(o, slots);
      assert slots[0] in slots && forall slot | slot in slots[1..] :: slot in slots;
      forall slot | slot in slots ensures slot in t.conflicts || exists id :: IsNew(o.calendar, t.calendar, id, slot) {
        if slot == slots[0] {
          if !Taken(o.calendar, slot) {
            assert IsNew(o.calendar, t.calendar, o.calendar.nextId, slot);
          }
        } else {
          assert slot in slots[1..];
          if slot !in t.conflicts {
            var id :| IsNew(next.calendar, t.calendar, id, slot);
            assert IsNew(o.calendar, t.calendar, id, slot);
          }
        }
      }
    }
  }

  /**
   * Generating a project's schedule stores and reports sessions of the chosen tasks' active schedules and nothing else,
   * and each of those is stored or reported.
   */
  lemma GeneratingMeans(c: Calendar, p: Project, chosen: set<nat>)
    requires Valid(c)
    ensures var t := Filled(Outcome(c, 0, []), TasksSlots(p, p.tasks, chosen));
            && Extends(t.calendar, c)
            && (forall id | id in t.calendar.entries && id !in c.entries ::
                  !t.calendar.entries[id].isBreak && t.calendar.entries[id].parent == None
                  && IsAsked(p, p.tasks, chosen, t.calendar.entries[id].slot))
            && (forall slot | slot in t.conflicts :: IsAsked(p, p.tasks, chosen, slot))
            && (forall slot | IsAsked(p, p.tasks, chosen, slot) ::
                  slot in t.conflicts || exists id :: IsNew(c, t.calendar, id, slot))
  {
    var o, slots := Outcome(c, 0, []), TasksSlots(p, p.tasks, chosen);
    FillingMeans(o, slots);
    FillingKeepsApart(o, slots);
    forall slot ensures slot in slots <==> IsAsked(p, p.tasks, chosen, slot) {
      TasksSlotsIff(p, p.tasks, chosen, slot);
    }
  }

  lemma {:induction false} StaysTaken(o: Outcome, slots: seq<Slot>, slot: Slot)
    requires Valid(o.calendar) && Taken(o.calendar, slot)
    ensures Taken(Filled(o, slots).calendar, slot)
  {
    FillingKeepsApart(o, slots);
    var id :| id in o.calendar.entries && !o.calendar.entries[id].isBreak && Clash(o.calendar.entries[id].slot, slot);
    assert id in Filled(o, slots).calendar.entries;
  }

  /** A slot whose end wrapped at midnight, or that has no length. */
  predicate Wraps(slot: Slot) {
    slot.end <= slot.start
  }

  function WrapsIn(slots: seq<Slot>): nat {
    if slots == [] then 0 else (if Wraps(slots[0]) then 1 else 0) + WrapsIn(slots[1..])
  }

  /** The result is maximal: of the slots that were asked for, only one that wraps can still be free. */
  lemma {:induction false} FillingIsMaximal(o: Outcome, slots: seq<Slot>)
    requires Valid(o.calendar)
    ensures forall i | 0 <= i < |slots| :: Taken(Filled(o, slots).calendar, slots[i]) || Wraps(slots[i])
    decreases |slots|
  {
    if slots != [] {
      var next := Placed(o, slots[0]);
      PlacingKeepsApart(o, slots[0]);
      VisitedTwice(o, slots[0]);
      if !Wraps(slots[0]) {
        StaysTaken(next, slots[1..], slots[0]);
      }
      FillingIsMaximal(next, slots[1..]);
      forall i | 0 <= i < |slots| ensures Taken(Filled(o, slots).calendar, slots[i]) || Wraps(slots[i]) {
        if i > 0 { assert slots[i] == slots[1..][i - 1]; }
      }
    }
  }

  /** A slot that was placed is found by the next visit exactly if it ends after it starts: not past midnight. */
  lemma VisitedTwice(o: Outcome, slot: Slot)
    requires Valid(o.calendar)
    ensures Taken(Placed(o, slot).calendar, slot) <==> Taken(o.calendar, slot) || slot.start < slot.end
  {
    var c := Placed(o, slot).calendar;
    if !Taken(o.calendar, slot) {
      assert c.entries[o.calendar.nextId] == Entry(slot, false, None);
      if Taken(c, slot) {
        var id :| id in c.entries && !c.entries[id].isBreak && Clash(c.entries[id].slot, slot);
        assert id == o.calendar.nextId;
      }
    }
  }

  /** A task of exactly this slot is stored, and nothing clashes with it. */
  ghost predicate StoredFree(c: Calendar, slot: Slot) {
    !Taken(c, slot) && exists id | id in c.entries :: !c.entries[id].isBreak && c.entries[id].slot == slot
  }

  /** A stored slot that nothing clashes with stays so: whatever clashed with it would not be stored. */
  lemma {:induction false} StaysFree(o: Outcome, slots: seq<Slot>, slot: Slot)
    requires Valid(o.calendar) && StoredFree(o.calendar, slot)
    ensures StoredFree(Filled(o, slots).calendar, slot)
    decreases |slots|
  {
    if slots != [] {
      var x, next := slots[0], Placed(o, slots[0]);
      PlacingKeepsApart(o, x);
      var id :| id in o.calendar.entries && !o.calendar.entries[id].isBreak && o.calendar.entries[id].slot == slot;
      assert id in next.calendar.entries && next.calendar.entries[id] == o.calendar.entries[id];
      if !Taken(o.calendar, x) {
        assert !Clash(o.calendar.entries[id].slot, x);
        PlacedAlone(o, x, slot);
      }
      StaysFree(next, slots[1..], slot);
    }
  }

  /** What placing x takes, beside what was taken. */
  lemma PlacedAlone(o: Outcome, x: Slot, slot: Slot)
    requires Valid(o.calendar) && !Taken(o.calendar, x)
    ensures Taken(Placed(o, x).calendar, slot) <==> Taken(o.calendar, slot) || Clash(x, slot)
  {
    var c := Placed(o, x).calendar;
    assert c.entries[o.calendar.nextId] == Entry(x, false, None);
    if Taken(o.calendar, slot) {
      var id :| id in o.calendar.entries && !o.calendar.entries[id].isBreak && Clash(o.calendar.entries[id].slot, slot);
      assert c.entries[id] == o.calendar.entries[id];
    }
    if Taken(c, slot) {
      var id :| id in c.entries && !c.entries[id].isBreak && Clash(c.entries[id].slot, slot);
      assert id == o.calendar.nextId || c.entries[id] == o.calendar.entries[id];
    }
  }

  /** The slots that a calendar still has room for, by its conflict test. */
  function FreeIn(c: Calendar, slots: seq<Slot>): nat {
    if slots == [] then 0 else (if Taken(c, slots[0]) then 0 else 1) + FreeIn(c, slots[1..])
  }

  /** After filling, the slots still free are those that wrap and were stored. */
  lemma {:induction false} FreeAfterFilling(o: Outcome, slots: seq<Slot>)
    requires Valid(o.calendar)
    ensures var t := Filled(o, slots);
            && |o.conflicts| <= |t.conflicts| && t.conflicts[..|o.conflicts|] == o.conflicts
            && FreeIn(t.calendar, slots) + WrapsIn(t.conflicts[|o.conflicts|..]) == WrapsIn(slots)
            && forall i | 0 <= i < |slots| :: Taken(t.calendar, slots[i]) || StoredFree(t.calendar, slots[i])
    decreases |slots|
  {
    var t := Filled(o, slots);
    if slots == [] {
      assert t.conflicts[|o.conflicts|..] == [];
    } else {
      var x, next := slots[0], Placed(o, slots[0]);
      PlacingKeepsApart(o, x);
      VisitedTwice(o, x);
      FreeAfterFilling(next, slots[1..]);
      if Taken(next.calendar, x) {
        StaysTaken(next, slots[1..], x);
      } else {
        assert next.calendar.entries[o.calendar.nextId].slot == x;
        StaysFree(next, slots[1..], x);
      }
      if Taken(o.calendar, x) {
        assert next.conflicts == o.conflicts + [x];
        assert t.conflicts[|o.conflicts|..] == [x] + t.conflicts[|next.conflicts|..] by {
          assert t.conflicts[|o.conflicts|] == next.conflicts[|o.conflicts|] == x;
        }
      }
      forall i | 0 <= i < |slots| ensures Taken(t.calendar, slots[i]) || StoredFree(t.calendar, slots[i]) {
        if i > 0 { assert slots[i] == slots[1..][i - 1]; }
      }
    }
  }

  ghost predicate SameRoom(c: Calendar, d: Calendar) {
    forall slot :: Taken(c, slot) <==> Taken(d, slot)
  }

  /** Filling again: what is placed was stored already, so there is as much room as before, and it is placed again. */
  lemma {:induction false} FillingAgain(o: Outcome, once: Calendar, slots: seq<Slot>)
    requires Valid(o.calendar) && SameRoom(o.calendar, once)
    requires forall i | 0 <= i < |slots| :: Taken(once, slots[i]) || StoredFree(once, slots[i])
    ensures Filled(o, slots).created == o.created + FreeIn(once, slots)
    decreases |slots|
  {
    if slots != [] {
      var x, next := slots[0], Placed(o, slots[0]);
      PlacingKeepsApart(o, x);
      if !Taken(o.calendar, x) {
        forall slot ensures Taken(next.calendar, slot) <==> Taken(once, slot) {
          PlacedAlone(o, x, slot);
          assert StoredFree(once, x);
          assert Clash(x, slot) ==> Taken(once, slot);
        }
      }
      assert forall i | 0 <= i < |slots[1..]| :: slots[1..][i] == slots[i + 1];
      FillingAgain(next, once, slots[1..]);
    }
  }

  /** A run that creates nothing leaves the calendar alone and reports every slot. */
  lemma {:induction false} NothingCreated(o: Outcome, slots: seq<Slot>)
    ensures o.created <= Filled(o, slots).created
    ensures Filled(o, slots).created == o.created ==> Filled(o, slots) == o.(conflicts := o.conflicts + slots)
    decreases |slots|
  {
    if slots != [] {
      NothingCreated(Placed(o, slots[0]), slots[1..]);
      assert o.conflicts + slots == (o.conflicts + [slots[0]]) + slots[1..];
    } else {
      assert o.conflicts + slots == o.conflicts;
    }
  }

  /**
   * A second run with the same input stores again exactly the slots that wrap and were stored by the first, and reports
   * all others. So it creates nothing exactly if the first run reported every visited slot that wraps.
   */
  lemma GeneratingTwice(c: Calendar, p: Project, chosen: set<nat>)
    requires Valid(c)
    ensures var slots := TasksSlots(p, p.tasks, chosen);
            var once := Filled(Outcome(c, 0, []), slots);
            var twice := Filled(Outcome(once.calendar, 0, []), slots);
            && twice.created + WrapsIn(once.conflicts) == WrapsIn(slots)
            && twice.created + |twice.conflicts| == |slots|
            && (twice.created == 0 ==> twice == Outcome(once.calendar, 0, slots))
            && forall i | 0 <= i < |slots| && !Wraps(slots[i]) :: Taken(once.calendar, slots[i])
  {
    var slots := TasksSlots(p, p.tasks, chosen);
    var o := Outcome(c, 0, []);
    var once := Filled(o, slots);
    FreeAfterFilling(o, slots);
    FillingKeepsApart(o, slots);
    FillingIsMaximal(o, slots);
    assert once.conflicts[0..] == once.conflicts;
    FillingAgain(Outcome(once.calendar, 0, []), once.calendar, slots);
    FillingKeepsApart(Outcome(once.calendar, 0, []), slots);
    NothingCreated(Outcome(once.calendar, 0, []), slots);
    assert [] + slots == slots;
  }

  /** A session that has a length and ends before midnight. */
  predicate WithinDay(s: Schedule) {
    0 <= s.start && 0 < s.duration && s.start + s.duration < DAY
  }

  predicate NoneWraps(slots: seq<Slot>) {
    forall i | 0 <= i < |slots| :: !Wraps(slots[i])
  }

  lemma {:induction false} SchedulesWithinDay(p: Project, schedules: seq<Schedule>)
    requires forall i | 0 <= i < |schedules| && schedules[i].isActive :: WithinDay(schedules[i])
    ensures NoneWraps(SchedulesSlots(p, schedules))
    decreases |schedules|
  {
    if schedules != [] {
      SchedulesWithinDay(p, schedules[1..]);
    }
  }

  lemma {:induction false} TasksWithinDay(p: Project, tasks: seq<ProjectTask>, chosen: set<nat>)
    requires forall i, j | 0 <= i < |tasks| && 0 <= j < |tasks[i].schedules| && tasks[i].schedules[j].isActive ::
               WithinDay(tasks[i].schedules[j])
    ensures NoneWraps(TasksSlots(p, tasks, chosen))
    decreases |tasks|
  {
    if tasks != [] {
      SchedulesWithinDay(p, tasks[0].schedules);
      TasksWithinDay(p, tasks[1..], chosen);
    }
  }

  lemma {:induction false} NoWraps(slots: seq<Slot>)
    requires NoneWraps(slots)
    ensures WrapsIn(slots) == 0
    decreases |slots|
  {
    if slots != [] {
      assert forall i | 0 <= i < |slots[1..]| :: slots[1..][i] == slots[i + 1];
      NoWraps(slots[1..]);
    }
  }

  /** With sessions that end before midnight, a second run creates nothing and reports every slot. */
  lemma SecondRunCreatesNothing(c: Calendar, p: Project, chosen: set<nat>)
    requires Valid(c)
    requires forall i, j | 0 <= i < |p.tasks| && 0 <= j < |p.tasks[i].schedules| && p.tasks[i].schedules[j].isActive ::
               WithinDay(p.tasks[i].schedules[j])
    ensures var slots := TasksSlots(p, p.tasks, chosen);
            var once := Filled(Outcome(c, 0, []), slots).calendar;
            Filled(Outcome(once, 0, []), slots) == Outcome(once, 0, slots)
  {
    TasksWithinDay(p, p.tasks, chosen);
    NoWraps(TasksSlots(p, p.tasks, chosen));
    GeneratingTwice(c, p, chosen);
  }

  /** When a session crosses midnight, or has no length, a second run stores the same session again. */
  lemma MidnightSessionIsStoredAgain(slot: Slot)
    requires slot.end <= slot.start
    ensures var once := Filled(Outcome(Calendar(map[], 0), 0, []), [slot]).calendar;
            var twice := Filled(Outcome(once, 0, []), [slot]);
            && twice.created == 1
            && twice.calendar.entries == map[0 := Entry(slot, false, None), 1 := Entry(slot, false, None)]
  {
    var o := Outcome(Calendar(map[], 0), 0, []);
    var once := Placed(o, slot).calendar;
    assert Filled(o, [slot]) == Filled(Placed(o, slot), []);
    VisitedTwice(o, slot);
    var p := Outcome(once, 0, []);
    assert Filled(p, [slot]) == Filled(Placed(p, slot), []);
  }

  // ---------------------------------------------------------------------------------------------
  // Breaks

  function BreakOf(slot: Slot): Slot {
    Slot(slot.date, slot.end, (slot.end + BREAK) % DAY)
  }

  /**
   * auto_insert_breaks has something to insert: a long task, no break of it yet, and nothing but the task in the
   * way.
   */
  predicate BreakFits(c: Calendar, id: nat)
    requires id in c.entries
  {
    var e := c.entries[id];
    var b := BreakOf(e.slot);
    && !e.isBreak
    && e.slot.end - e.slot.start >= LONG_TASK
    && !(exists k | k in c.entries :: c.entries[k].isBreak && c.entries[k].parent == Some(id)
                                      && c.entries[k].slot.date == b.date && c.entries[k].slot.start == b.start)
    && !(exists k | k in c.entries && k != id :: Clash(c.entries[k].slot, b))
  }

  function WithBreak(c: Calendar, id: nat): Calendar
    requires id in c.entries
  {
    if BreakFits(c, id) then Added(c, Entry(BreakOf(c.entries[id].slot), true, Some(id))) else c
  }

  function WithoutBreaks(c: Calendar, id: nat): Calendar {
    c.(entries := map k | k in c.entries && c.entries[k].parent != Some(id) :: c.entries[k])
  }

  datatype Op =
    | Create(slot: Slot)
    | Edit(id: nat, slot: Slot)
    | Delete(id: nat)
    | Generate(slots: seq<Slot>)
    | Copy(slot: Slot)

  /**
   * One view call; a form whose end is not after its start is refused, an unknown id is not found. A copy is stored as
   * it is, without a look at its times, at other tasks or at breaks.
   */
  function Applied(c: Calendar, op: Op): Calendar {
    match op
    case Create(slot) =>
      if slot.start >= slot.end then c else WithBreak(Added(c, Entry(slot, false, None)), c.nextId)
    case Edit(id, slot) =>
      if id !in c.entries || slot.start >= slot.end then c else
        var edited := c.(entries := c.entries[id := c.entries[id].(slot := slot)]);
        var left := WithoutBreaks(edited, id);
        if id in left.entries then WithBreak(left, id) else left
    case Delete(id) =>
      var left := WithoutBreaks(c, id);
      left.(entries := left.entries - {id})
    case Generate(slots) => Filled(Outcome(c, 0, []), slots).calendar
    case Copy(slot) => Added(c, Entry(slot, false, None))
  }

  /** A break that is put anywhere but after its task no longer follows it. */
  predicate Misplaces(c: Calendar, op: Op) {
    op.Edit? && op.id in c.entries && op.slot.start < op.slot.end && c.entries[op.id].isBreak
    && c.entries[op.id].parent.Some? && c.entries[op.id].parent.value in c.entries
    && !IsBreakOf(op.slot, c.entries[c.entries[op.id].parent.value].slot)
  }

  /** Every break belongs to one stored task, which is no break itself, and is its only one. */
  ghost predicate Linked(c: Calendar) {
    && Valid(c)
    && (forall k | k in c.entries :: c.entries[k].isBreak <==> c.entries[k].parent.Some?)
    && (forall k | k in c.entries && c.entries[k].isBreak ::
          var p := c.entries[k].parent.value; p in c.entries && !c.entries[p].isBreak)
    && (forall k, l | k in c.entries && l in c.entries
                      && c.entries[k].isBreak && c.entries[k].parent == c.entries[l].parent ::
          k == l)
  }

  /** Every break comes right after its task. */
  ghost predicate Follow(c: Calendar)
    requires Linked(c)
  {
    forall k | k in c.entries && c.entries[k].isBreak ::
      IsBreakOf(c.entries[k].slot, c.entries[c.entries[k].parent.value].slot)
  }

  /** From the end of a long task for ten minutes, on its date; the end wraps at midnight. */
  predicate IsBreakOf(b: Slot, task: Slot) {
    b == BreakOf(task) && task.end - task.start >= LONG_TASK
  }

  /**
   * The inserted break is the ten minutes after the task exactly if the task ends before 23:50; nothing else is in
   * it.
   */
  lemma InsertedBreak(c: Calendar, id: nat)
    requires Valid(c) && id in c.entries && BreakFits(c, id) && 0 <= c.entries[id].slot.end < DAY
    ensures var e := c.entries[id];
            var b := WithBreak(c, id).entries[c.nextId];
            && b.isBreak && b.parent == Some(id) && b.slot.date == e.slot.date && b.slot.start == e.slot.end
            && (b.slot.end == e.slot.end + BREAK <==> e.slot.end < DAY - BREAK)
            && forall k | k in c.entries && k != id :: !Clash(c.entries[k].slot, b.slot)
  {
    var b := BreakOf(c.entries[id].slot);
    forall k | k in c.entries && k != id ensures !Clash(c.entries[k].slot, b) {}
  }

  lemma WithBreakKeepsBreaks(c: Calendar, id: nat)
    requires Linked(c) && id in c.entries
    requires forall k | k in c.entries :: c.entries[k].parent != Some(id)
    ensures Linked(WithBreak(c, id)) && (Follow(c) ==> Follow(WithBreak(c, id)))
  {
  }

  lemma {:induction false} FillingKeepsBreaks(o: Outcome, slots: seq<Slot>)
    requires Linked(o.calendar)
    ensures Linked(Filled(o, slots).calendar) && (Follow(o.calendar) ==> Follow(Filled(o, slots).calendar))
    decreases |slots|
  {
    if slots != [] {
      FillingKeepsBreaks(Placed(o, slots[0]), slots[1..]);
    }
  }

  lemma EditKeepsBreaks(c: Calendar, id: nat, slot: Slot)
    requires Linked(c) && id in c.entries && slot.start < slot.end
    ensures Linked(Applied(c, Edit(id, slot)))
    ensures Follow(c) ==> (Follow(Applied(c, Edit(id, slot))) <==> !Misplaces(c, Edit(id, slot)))
  {
    var edited := c.(entries := c.entries[id := c.entries[id].(slot := slot)]);
    var left := WithoutBreaks(edited, id);
    assert Linked(left) && id in left.entries;
    if c.entries[id].isBreak {
      assert !BreakFits(left, id);
      var p := c.entries[id].parent.value;
      assert p != id && left.entries[p] == c.entries[p];
      assert left.entries[id].slot == slot && left.entries[id].parent == Some(p);
    } else {
      assert Follow(c) ==> Follow(left);
      WithBreakKeepsBreaks(left, id);
    }
  }

  /**
   * Every operation keeps each break with its one task; and the breaks stay right after their tasks exactly if the
   * operation does not edit a break to be elsewhere.
   */
  lemma OperationKeepsBreaks(c: Calendar, op: Op)
    requires Linked(c)
    ensures Linked(Applied(c, op))
    ensures Follow(c) ==> (Follow(Applied(c, op)) <==> !Misplaces(c, op))
  {
    match op
    case Create(slot) =>
      if slot.start < slot.end {
        WithBreakKeepsBreaks(Added(c, Entry(slot, false, None)), c.nextId);
      }
    case Edit(id, slot) =>
      if id in c.entries && slot.start < slot.end {
        EditKeepsBreaks(c, id, slot);
      }
    case Delete(_) =>
    case Generate(slots) => FillingKeepsBreaks(Outcome(c, 0, []), slots);
    case Copy(_) =>
  }

  // What the views do, entry by entry

  /** The minute of the day at which a break that starts at `start` ends. */
  function BreakEnd(start: int): int {
    if start < 1430 then start + 10 else start - 1430
  }

  /** A long task with no other entry in the ten minutes after it. */
  ghost predicate HasRoomForBreak(c: Calendar, id: nat)
    requires id in c.entries
  {
    var task := c.entries[id].slot;
    && task.end - task.start >= 60
    && forall k | k in c.entries && k != id ::
         var other := c.entries[k].slot;
         !(other.date == task.date && other.start < BreakEnd(task.end) && other.end > task.end)
  }

  /** A break is inserted exactly after a long task with room for it that has none yet. */
  lemma WithBreakMeans(c: Calendar, id: nat)
    requires id in c.entries && 0 <= c.entries[id].slot.end < 1440
    requires forall k | k in c.entries :: c.entries[k].parent != Some(id)
    ensures var e := c.entries[id];
            var b := Entry(Slot(e.slot.date, e.slot.end, BreakEnd(e.slot.end)), true, Some(id));
            WithBreak(c, id) ==
            if !e.isBreak && HasRoomForBreak(c, id) then Calendar(c.entries[c.nextId := b], c.nextId + 1) else c
  {
    var e := c.entries[id];
    BreakEnds(e.slot.end);
    var b := BreakOf(e.slot);
    assert b == Slot(e.slot.date, e.slot.end, BreakEnd(e.slot.end));
    assert BreakFits(c, id) <==> !e.isBreak && HasRoomForBreak(c, id);
  }

  lemma BreakEnds(start: int)
    requires 0 <= start < 1440
    ensures (start + BREAK) % DAY == BreakEnd(start)
  {
  }

  /** A new task is stored as it is, with its break if there is room for one, and nothing else changes. */
  lemma CreateMeans(c: Calendar, slot: Slot)
    requires Linked(c) && 0 <= slot.end < 1440
    ensures var t := Applied(c, Create(slot));
            var task := Calendar(c.entries[c.nextId := Entry(slot, false, None)], c.nextId + 1);
            t == if slot.start >= slot.end then c
                 else if HasRoomForBreak(task, c.nextId) then
                   var b := Entry(Slot(slot.date, slot.end, BreakEnd(slot.end)), true, Some(c.nextId));
                   Calendar(task.entries[task.nextId := b], task.nextId + 1)
                 else task
  {
    if slot.start < slot.end {
      WithBreakMeans(Added(c, Entry(slot, false, None)), c.nextId);
    }
  }

  /** The calendar with another slot for a task, and without its breaks. */
  function Moved(c: Calendar, id: nat, slot: Slot): Calendar
    requires id in c.entries
  {
    c.(entries := map k | k in c.entries && c.entries[k].parent != Some(id) ::
         if k == id then c.entries[k].(slot := slot) else c.entries[k])
  }

  /** An edited task has its new slot, and a new break for its old one if there is room; a break just its new slot. */
  lemma EditMeans(c: Calendar, id: nat, slot: Slot)
    requires Linked(c) && 0 <= slot.end < 1440
    ensures var t := Applied(c, Edit(id, slot));
            if id !in c.entries || slot.start >= slot.end then t == c
            else if !c.entries[id].isBreak && HasRoomForBreak(Moved(c, id, slot), id) then
              var b := Entry(Slot(slot.date, slot.end, BreakEnd(slot.end)), true, Some(id));
              t == Calendar(Moved(c, id, slot).entries[c.nextId := b], c.nextId + 1)
            else t == Moved(c, id, slot)
  {
    if id in c.entries && slot.start < slot.end {
      var edited := c.(entries := c.entries[id := c.entries[id].(slot := slot)]);
      assert WithoutBreaks(edited, id) == Moved(c, id, slot);
      assert id in Moved(c, id, slot).entries;
      WithBreakMeans(Moved(c, id, slot), id);
    }
  }

  /** A deleted task is gone with its breaks, and nothing else changes. */
  lemma DeleteMeans(c: Calendar, id: nat)
    ensures var t := Applied(c, Delete(id));
            && t.nextId == c.nextId
            && forall k :: Lookup(t.entries, k) ==
                 if k == id || (k in c.entries && c.entries[k].parent == Some(id)) then None else Lookup(c.entries, k)
  {
  }

  function Run(c: Calendar, ops: seq<Op>): Calendar
    decreases |ops|
  {
    if ops == [] then c else Run(Applied(c, ops[0]), ops[1..])
  }

  /** The tasks of the day before `today` that are asked for, with the times to use instead of theirs. */
  datatype Times = Times(start: Option<int>, end: Option<int>)

  predicate FromYesterday(c: Calendar, today: int, id: nat) {
    id in c.entries && c.entries[id].slot.date == today - 1
  }

  function CopySlot(c: Calendar, today: int, id: nat, times: map<nat, Times>): Slot
    requires id in c.entries
  {
    var slot := c.entries[id].slot;
    var t := if id in times then times[id] else Times(None, None);
    Slot(today, if t.start.Some? then t.start.value else slot.start, if t.end.Some? then t.end.value else slot.end)
  }

  /** What copy_tasks_from_yesterday does for the ids from the i-th on, read off the calendar as it is at first. */
  function Copies(c: Calendar, today: int, ids: seq<nat>, i: nat, times: map<nat, Times>): seq<Op>
    requires i <= |ids|
    decreases |ids| - i
  {
    if i == |ids| then []
    else if FromYesterday(c, today, ids[i])
    then [Copy(CopySlot(c, today, ids[i], times))] + Copies(c, today, ids, i + 1, times)
    else Copies(c, today, ids, i + 1, times)
  }

  /** `missing`, and those of the ids from the i-th on that are no tasks of the day before. */
  function Missing(c: Calendar, today: int, ids: seq<nat>, i: nat, missing: seq<nat>): seq<nat>
    requires i <= |ids|
    decreases |ids| - i
  {
    if i == |ids| then missing
    else Missing(c, today, ids, i + 1, if FromYesterday(c, today, ids[i]) then missing else missing + [ids[i]])
  }

  /** A copy is not of yesterday, so it changes nothing for the ids after it. */
  lemma {:induction false} CopyLeavesRest(
      c: Calendar, slot: Slot, today: int, ids: seq<nat>, i: nat, times: map<nat, Times>, missing: seq<nat>)
    requires Valid(c) && slot.date == today && i <= |ids|
    ensures var d := Applied(c, Copy(slot));
            && Valid(d) && Copies(d, today, ids, i, times) == Copies(c, today, ids, i, times)
            && Missing(d, today, ids, i, missing) == Missing(c, today, ids, i, missing)
    decreases |ids| - i
  {
    if i < |ids| {
      var more := if FromYesterday(c, today, ids[i]) then missing else missing + [ids[i]];
      CopyLeavesRest(c, slot, today, ids, i + 1, times, more);
    }
  }

  /** The calendar after one id, and whether it was found. */
  function CopiedOne(c: Calendar, today: int, id: nat, times: map<nat, Times>): (Calendar, bool) {
    if FromYesterday(c, today, id) then (Applied(c, Copy(CopySlot(c, today, id, times))), true) else (c, false)
  }

  /** The calendar after the ids from the i-th on, one after the other, and `missing` with those not found. */
  function CopiedFrom(c: Calendar, today: int, ids: seq<nat>, i: nat, times: map<nat, Times>, missing: seq<nat>)
    : (Calendar, seq<nat>)
    requires i <= |ids|
    decreases |ids| - i
  {
    if i == |ids| then (c, missing) else
      var (d, found) := CopiedOne(c, today, ids[i], times);
      CopiedFrom(d, today, ids, i + 1, times, if found then missing else missing + [ids[i]])
  }

  /** Copying makes a run of copies of what was stored at first: no copy is copied again. */
  lemma {:induction false} CopiedFromIsRun(
      c: Calendar, today: int, ids: seq<nat>, i: nat, times: map<nat, Times>, missing: seq<nat>)
    requires Valid(c) && i <= |ids|
    ensures CopiedFrom(c, today, ids, i, times, missing)
            == (Run(c, Copies(c, today, ids, i, times)), Missing(c, today, ids, i, missing))
    decreases |ids| - i
  {
    if i < |ids| {
      if FromYesterday(c, today, ids[i]) {
        var op := Copy(CopySlot(c, today, ids[i], times));
        CopyLeavesRest(c, op.slot, today, ids, i + 1, times, missing);
        CopiedFromIsRun(Applied(c, op), today, ids, i + 1, times, missing);
        RunFirst(c, op, Copies(c, today, ids, i + 1, times));
      } else {
        CopiedFromIsRun(c, today, ids, i + 1, times, missing + [ids[i]]);
      }
    }
  }

  lemma RunFirst(c: Calendar, op: Op, ops: seq<Op>)
    ensures Run(c, [op] + ops) == Run(Applied(c, op), ops)
  {
    assert ([op] + ops)[1..] == ops;
  }

  predicate NoneMisplaces(c: Calendar, ops: seq<Op>)
    decreases |ops|
  {
    ops == [] || (!Misplaces(c, ops[0]) && NoneMisplaces(Applied(c, ops[0]), ops[1..]))
  }

  /** In every run, each task has at most one break, right after the task unless it is edited away. */
  lemma {:induction false} RunKeepsBreaks(c: Calendar, ops: seq<Op>)
    requires Linked(c)
    ensures Linked(Run(c, ops)) && (Follow(c) && NoneMisplaces(c, ops) ==> Follow(Run(c, ops)))
    decreases |ops|
  {
    if ops != [] {
      OperationKeepsBreaks(c, ops[0]);
      RunKeepsBreaks(Applied(c, ops[0]), ops[1..]);
    }
  }

  // ---------------------------------------------------------------------------------------------
  // The views

  class PersonalCalendar {
    var entries: map<nat, Entry>
    var nextId: nat

    constructor ()
      ensures Value() == Calendar(map[], 0)
    {
      entries, nextId := map[], 0;
    }

    function Value(): Calendar
      reads this
    {
      Calendar(entries, nextId)
    }

    function Progress(created: nat, conflicts: seq<Slot>): Outcome
      reads this
    {
      Outcome(Value(), created, conflicts)
    }

    /** The body of the loops: a slot that is taken is reported, any other is stored. */
    method PlaceSlot(slot: Slot, created0: nat, conflicts0: seq<Slot>) returns (created: nat, conflicts: seq<Slot>)
      modifies this
      ensures Progress(created, conflicts) == Placed(old(Progress(created0, conflicts0)), slot)
    {
      created, conflicts := created0, conflicts0;
      if exists id | id in entries :: !entries[id].isBreak && Clash(entries[id].slot, slot) {
        conflicts := conflicts + [slot];
      } else {
        entries, nextId := entries[nextId := Entry(slot, false, None)], nextId + 1;
        created := created + 1;
      }
    }

    /** The week loop of generate_schedule, for one schedule. */
    method PlaceWeeks(p: Project, s: Schedule, created0: nat, conflicts0: seq<Slot>)
          returns (created: nat, conflicts: seq<Slot>)
      modifies this
      ensures Progress(created, conflicts)
              == Filled(old(Progress(created0, conflicts0)), SlotsOn(s, Visits(p, s, p.startDate, 0)))
    {
      created, conflicts := created0, conflicts0;
      var currentDate, weekCount := p.startDate, 0;
      ghost var goal := Filled(Progress(created, conflicts), SlotsOn(s, Visits(p, s, currentDate, weekCount)));
      while currentDate <= p.endDate && weekCount < s.weeks
        invariant Filled(Progress(created, conflicts), SlotsOn(s, Visits(p, s, currentDate, weekCount))) == goal
        decreases s.weeks - weekCount
      {
        var daysAhead := (s.dayOfWeek - Weekday(currentDate)) % 7;
        var targetDate;
        if daysAhead == 0 && currentDate != p.startDate {
          targetDate := currentDate + 7;
        } else {
          targetDate := currentDate + daysAhead;
        }
        if targetDate > p.endDate {
          break;
        }
        OneMoreVisit(Progress(created, conflicts), s, targetDate, Visits(p, s, targetDate + 1, weekCount + 1));
        created, conflicts := PlaceSlot(SlotOn(s, targetDate), created, conflicts);
        currentDate := targetDate + 1;
        weekCount := weekCount + 1;
      }
      assert SlotsOn(s, []) == [];
    }

    /** generate_schedule for the chosen tasks; `scheduled` are the tasks marked as scheduled. */
    method GenerateSchedule(p: Project, chosen: set<nat>)
          returns (created: nat, conflicts: seq<Slot>, scheduled: set<nat>)
      modifies this
      ensures Progress(created, conflicts) == Filled(old(Progress(0, [])), TasksSlots(p, p.tasks, chosen))
      ensures forall id :: id in scheduled <==> exists k | 0 <= k < |p.tasks| :: Marks(p.tasks[k], chosen, id)
    {
      created, conflicts, scheduled := 0, [], {};
      ghost var goal := Filled(Progress(0, []), TasksSlots(p, p.tasks, chosen));
      for i := 0 to |p.tasks|
        invariant Filled(Progress(created, conflicts), TasksSlots(p, p.tasks[i..], chosen)) == goal
        invariant forall id :: id in scheduled <==> exists k | 0 <= k < i :: Marks(p.tasks[k], chosen, id)
      {
        var task := p.tasks[i];
        assert p.tasks[i..][1..] == p.tasks[i + 1..];
        if task.id in chosen {
          FilledInTwo(Progress(created, conflicts), SchedulesSlots(p, task.schedules),
                      TasksSlots(p, p.tasks[i + 1..], chosen));
          var marked;
          created, conflicts, marked := PlaceTask(p, task, created, conflicts);
          if marked {
            scheduled := scheduled + {task.id};
          }
        }
      }
    }

    method PlaceTask(p: Project, task: ProjectTask, created0: nat, conflicts0: seq<Slot>)
      returns (created: nat, conflicts: seq<Slot>, marked: bool)
      modifies this
      ensures Progress(created, conflicts)
              == Filled(old(Progress(created0, conflicts0)), SchedulesSlots(p, task.schedules))
      ensures marked <==> HasActive(task)
    {
      created, conflicts, marked := created0, conflicts0, false;
      ghost var goal := Filled(Progress(created, conflicts), SchedulesSlots(p, task.schedules));
      for j := 0 to |task.schedules|
        invariant Filled(Progress(created, conflicts), SchedulesSlots(p, task.schedules[j..])) == goal
        invariant marked <==> exists k | 0 <= k < j :: task.schedules[k].isActive
      {
        var s := task.schedules[j];
        assert task.schedules[j..][1..] == task.schedules[j + 1..];
        if s.isActive {
          FilledInTwo(Progress(created, conflicts), SlotsOn(s, Visits(p, s, p.startDate, 0)),
                      SchedulesSlots(p, task.schedules[j + 1..]));
          created, conflicts := PlaceWeeks(p, s, created, conflicts);
          marked := true;
        }
      }
    }

    method AutoInsertBreaks(id: nat)
      requires id in entries
      modifies this
      ensures Value() == WithBreak(old(Value()), id)
    {
      var task := entries[id];
      if task.isBreak {
        return;
      }
      if task.slot.end - task.slot.start >= LONG_TASK {
        var b := Slot(task.slot.date, task.slot.end, (task.slot.end + BREAK) % DAY);
        var existing := exists k | k in entries :: entries[k].isBreak && entries[k].parent == Some(id)
                                                   && entries[k].slot.date == b.date
                                                   && entries[k].slot.start == b.start;
        if !existing {
          if !(exists k | k in entries && k != id :: Clash(entries[k].slot, b)) {
            entries, nextId := entries[nextId := Entry(b, true, Some(id))], nextId + 1;
          }
        }
      }
    }

    /** `accepted` is what the form says of the date and the category. */
    method CreatePersonalTask(slot: Slot, accepted: bool) returns (ok: bool)
      modifies this
      ensures ok <==> accepted && slot.start < slot.end
      ensures Value() == if accepted then Applied(old(Value()), Create(slot)) else old(Value())
    {
      ok := accepted && slot.start < slot.end;
      if ok {
        var id := nextId;
        entries, nextId := entries[id := Entry(slot, false, None)], nextId + 1;
        AutoInsertBreaks(id);
      }
    }

    method EditPersonalTask(id: nat, slot: Slot, accepted: bool) returns (ok: bool)
      modifies this
      ensures ok <==> id in old(entries) && accepted && slot.start < slot.end
      ensures Value() == if accepted then Applied(old(Value()), Edit(id, slot)) else old(Value())
    {
      ok := id in entries && accepted && slot.start < slot.end;
      if ok {
        entries := entries[id := entries[id].(slot := slot)];
        entries := map k | k in entries && entries[k].parent != Some(id) :: entries[k];
        if id in entries {
          AutoInsertBreaks(id);
        }
      }
    }

    method CopyOne(today: int, id: nat, times: map<nat, Times>) returns (found: bool)
      modifies this
      ensures (Value(), found) == CopiedOne(old(Value()), today, id, times)
      ensures found <==> id in old(entries) && old(entries)[id].slot.date + 1 == today
      ensures !found ==> entries == old(entries)
      ensures found ==>
                var slot := old(entries)[id].slot;
                var start := if id in times && times[id].start.Some? then times[id].start.value else slot.start;
                var end := if id in times && times[id].end.Some? then times[id].end.value else slot.end;
                entries == old(entries)[old(nextId) := Entry(Slot(today, start, end), false, None)]
    {
      found := id in entries && entries[id].slot.date == today - 1;
      if found {
        var slot := entries[id].slot.(date := today);
        if id in times {
          if times[id].start.Some? {
            slot := slot.(start := times[id].start.value);
          }
          if times[id].end.Some? {
            slot := slot.(end := times[id].end.value);
          }
        }
        entries, nextId := entries[nextId := Entry(slot, false, None)], nextId + 1;
      }
    }

    /** copy_tasks_from_yesterday: `missing` are the ids that are no tasks of the day before. */
    method CopyFromYesterday(today: int, ids: seq<nat>, times: map<nat, Times>) returns (missing: seq<nat>)
      modifies this
      ensures (Value(), missing) == CopiedFrom(old(Value()), today, ids, 0, times, [])
    {
      missing := [];
      ghost var goal := CopiedFrom(Value(), today, ids, 0, times, []);
      for i := 0 to |ids|
        invariant CopiedFrom(Value(), today, ids, i, times, missing) == goal
      {
        var found := CopyOne(today, ids[i], times);
        if !found {
          missing := missing + [ids[i]];
        }
      }
    }

    /** Deleting a task also deletes the breaks that name it as their parent. */
    method DeletePersonalTask(id: nat) returns (found: bool)
      modifies this
      ensures found <==> id in old(entries)
      ensures found ==> Value() == Applied(old(Value()), Delete(id))
      ensures !found ==> Value() == old(Value())
    {
      found := id in entries;
      if found {
        entries := map k | k in entries && entries[k].parent != Some(id) :: entries[k];
        entries := entries - {id};
      }
    }
  }
}
