/** `ActiveTaskManager` (app/services/task_manager.py): slot filling for a
    multi-turn task with a three-status lifecycle (`in_progress`,
    `completed`, `expired`).

    The task record is a dictionary the manager updates in place; here it
    is the class `TaskState`, whose snapshot is the value `TaskRecord`.
    The slot extractor (an LLM prompt followed by `json.loads`) is the
    parameter `extracted`, the object it returned (`{}` on failure), and
    the clock is the parameter `now`, in seconds. */
module TaskManager {
  import opened Base
  import opened Text

  /** `REQUIRED_SLOTS["ticket_booking"]` */
  const TicketSlots: seq<string> := ["type", "from", "to", "date", "class", "passenger_count"]

  /** `settings.memory_task_expiry_minutes` */
  const ExpiryMinutes: int := 30

  const ExpiredMessage := "Your previous booking session has expired. What can I help you with today?"

  /** `REQUIRED_SLOTS.get(task_type, [])` */
  function Required(taskType: string): seq<string> {
    if taskType == "ticket_booking" then TicketSlots else []
  }

  /** `task_state.get("type", "ticket_booking")` */
  function EffectiveType(taskType: Option<string>): string {
    match taskType
    case Some(t) => t
    case None => "ticket_booking"
  }

  /** `state.get(s)` is truthy. */
  predicate Filled(st: Dict<Json>, s: string) {
    match Get(st, s)
    case Some(v) => Truthy(v)
    case None => false
  }

  /* ---------------------------------------------------------------------
     Merging extracted slots and listing what is missing
     --------------------------------------------------------------------- */

  /** `for key, val in new_slots.items(): if val: state[key] = val` */
  function Merge(st: Dict<Json>, extracted: Dict<Json>): Dict<Json>
    decreases |extracted|
  {
    if extracted == [] then st
    else
      var prev := Merge(st, extracted[..|extracted| - 1]);
      var (k, v) := extracted[|extracted| - 1];
      if Truthy(v) then Put(prev, k, v) else prev
  }

  /** The merge loop of `process_task`, on the slot dictionary. */
  method MergeSlots(st0: Dict<Json>, extracted: Dict<Json>) returns (st: Dict<Json>)
    ensures st == Merge(st0, extracted)
  {
    st := st0;
    var i := 0;
    while i < |extracted|
      invariant 0 <= i <= |extracted|
      invariant st == Merge(st0, extracted[..i])
    {
      var (k, v) := extracted[i];
      assert extracted[..i + 1][..i] == extracted[..i];
      if Truthy(v) {
        st := Put(st, k, v);
      }
      i := i + 1;
    }
    assert extracted[..|extracted|] == extracted;
  }

  /** `[s for s in required if not state.get(s)]` */
  function Missing(required: seq<string>, st: Dict<Json>): (m: seq<string>)
    ensures |m| <= |required|
  {
    if required == [] then []
    else (if Filled(st, required[0]) then [] else [required[0]]) + Missing(required[1..], st)
  }

  /** A slot is missing exactly when it is required and not filled. */
  lemma {:induction false} MissingIff(required: seq<string>, st: Dict<Json>, s: string)
    ensures s in Missing(required, st) <==> s in required && !Filled(st, s)
  {
    if required != [] {
      MissingIff(required[1..], st, s);
      assert required == [required[0]] + required[1..];
    }
  }

  /** The first missing slot is the first unfilled one in declared order. */
  lemma {:induction false} MissingHead(required: seq<string>, st: Dict<Json>, i: nat)
    requires i < |required| && !Filled(st, required[i])
    requires forall j | 0 <= j < i :: Filled(st, required[j])
    ensures Missing(required, st) != [] && Missing(required, st)[0] == required[i]
  {
    if i > 0 {
      assert Filled(st, required[0]);
      MissingHead(required[1..], st, i - 1);
    }
  }

  /** An already filled slot stays filled: merging never clears a slot. */
  lemma {:induction false} MergeKeepsFilled(st: Dict<Json>, extracted: Dict<Json>, s: string)
    requires Filled(st, s)
    ensures Filled(Merge(st, extracted), s)
    decreases |extracted|
  {
    if extracted != [] {
      var prev := Merge(st, extracted[..|extracted| - 1]);
      MergeKeepsFilled(st, extracted[..|extracted| - 1], s);
      var (k, v) := extracted[|extracted| - 1];
      if Truthy(v) {
        PutGet(prev, k, v);
      }
    }
  }

  /** Every value after the merge is the one before it or a truthy value
      the extractor returned for that key. */
  lemma {:induction false} MergeSource(st: Dict<Json>, extracted: Dict<Json>, s: string)
    ensures Get(Merge(st, extracted), s) == Get(st, s)
            || (Get(Merge(st, extracted), s).Some?
                && Truthy(Get(Merge(st, extracted), s).value)
                && (s, Get(Merge(st, extracted), s).value) in extracted)
    decreases |extracted|
  {
    if extracted != [] {
      var init := extracted[..|extracted| - 1];
      var prev := Merge(st, init);
      MergeSource(st, init, s);
      var (k, v) := extracted[|extracted| - 1];
      if Truthy(v) {
        PutGet(prev, k, v);
      }
      if Get(Merge(st, extracted), s) == Get(prev, s) && Get(prev, s) != Get(st, s) {
        assert (s, Get(prev, s).value) in init;
        assert init <= extracted;
      }
    }
  }

  /** Merging can only remove slots from the missing list. */
  lemma MissingShrinks(required: seq<string>, st: Dict<Json>, extracted: Dict<Json>, s: string)
    requires s in Missing(required, Merge(st, extracted))
    ensures s in Missing(required, st)
  {
    MissingIff(required, Merge(st, extracted), s);
    MissingIff(required, st, s);
    if Filled(st, s) {
      MergeKeepsFilled(st, extracted, s);
    }
  }

  /** Once nothing is missing, nothing is missing after any further merge. */
  lemma NothingMissingStays(required: seq<string>, st: Dict<Json>, extracted: Dict<Json>)
    requires Missing(required, st) == []
    ensures Missing(required, Merge(st, extracted)) == []
  {
    var m := Missing(required, Merge(st, extracted));
    if m != [] {
      MissingShrinks(required, st, extracted, m[0]);
    }
  }

  /* ---------------------------------------------------------------------
     Messages
     --------------------------------------------------------------------- */

  /** The six slots with a canned question. */
  const QuestionSlots: seq<string> := ["type", "from", "to", "date", "class", "passenger_count"]

  /** `_get_slot_question(slot)` */
  function SlotQuestion(slot: string): string {
    if slot == "type" then "What kind of ticket are you booking (flight, train, bus)?"
    else if slot == "from" then "Where are you traveling from?"
    else if slot == "to" then "Where are you traveling to?"
    else if slot == "date" then "When is the travel date?"
    else if slot == "class" then "Which class would you like (Economy, Business, First)?"
    else if slot == "passenger_count" then "How many passengers?"
    else "Please provide the " + slot + "."
  }

  /** A slot without a canned question is asked for by name. */
  lemma UnknownSlotQuestion(slot: string)
    requires slot !in QuestionSlots
    ensures SlotQuestion(slot) == "Please provide the " + slot + "."
    ensures Contains(SlotQuestion(slot), slot)
  {
    ContainsMiddle("Please provide the ", slot, ".");
  }

  /** `_generate_completion_summary(task_type, state)` */
  function CompletionSummary(taskType: string, st: Dict<Json>): string {
    if taskType == "ticket_booking" then
      "Your " + Str(MemberOrNull(st, "type")) + " booking from " + Str(MemberOrNull(st, "from"))
      + " to " + Str(MemberOrNull(st, "to")) + " on " + Str(MemberOrNull(st, "date"))
      + " for " + Str(MemberOrNull(st, "passenger_count")) + " passengers has been processed."
    else "Task processed successfully."
  }

  /** The ticket summary names the origin and the destination as stored. */
  lemma SummaryQuotesRoute(st: Dict<Json>)
    ensures Contains(CompletionSummary("ticket_booking", st), Str(MemberOrNull(st, "from")))
    ensures Contains(CompletionSummary("ticket_booking", st), Str(MemberOrNull(st, "to")))
  {
    var ty, fr, to := Str(MemberOrNull(st, "type")), Str(MemberOrNull(st, "from")), Str(MemberOrNull(st, "to"));
    var da, pc := Str(MemberOrNull(st, "date")), Str(MemberOrNull(st, "passenger_count"));
    var s1 := "Your " + ty + " booking from " + fr;
    var s2 := s1 + " to " + to;
    var s3 := s2 + " on " + da + " for " + pc + " passengers has been processed.";
    ContainsSuffix("Your " + ty + " booking from ", fr);
    ContainsExtend(s1, " to ", fr);
    ContainsExtend(s1 + " to ", to, fr);
    ContainsSuffix(s1 + " to ", to);
    ContainsExtend(s2, " on ", fr);
    ContainsExtend(s2, " on ", to);
    ContainsExtend(s2 + " on ", da, fr);
    ContainsExtend(s2 + " on ", da, to);
    ContainsExtend(s2 + " on " + da, " for ", fr);
    ContainsExtend(s2 + " on " + da, " for ", to);
    ContainsExtend(s2 + " on " + da + " for ", pc, fr);
    ContainsExtend(s2 + " on " + da + " for ", pc, to);
    ContainsExtend(s2 + " on " + da + " for " + pc, " passengers has been processed.", fr);
    ContainsExtend(s2 + " on " + da + " for " + pc, " passengers has been processed.", to);
  }

  /* ---------------------------------------------------------------------
     One turn
     --------------------------------------------------------------------- */

  /** A snapshot of the task dictionary. `state` is `None` when the
      dictionary has no "state" entry; `lastActive` is `None` when
      "last_active" is absent, empty or not a timestamp. */
  datatype TaskRecord = TaskRecord(
    taskId: string,
    taskType: Option<string>,
    state: Option<Dict<Json>>,
    status: Option<string>,
    lastActive: Option<int>,
    createdAt: int)

  /** What `process_task` returns besides the updated record; `expired`
      is `False` when the key is absent. */
  datatype TurnResult = TurnResult(message: string, isComplete: bool, expired: bool)

  /** `is_expired(task_state)` as written: only an `in_progress` task with a
      timestamp can expire, once more than 30 minutes have passed. */
  predicate IsExpiredAsWritten(rec: TaskRecord, now: int) {
    rec.status == Some("in_progress") && rec.lastActive.Some?
    && now - rec.lastActive.value > ExpiryMinutes * 60
  }

  /** The expiry check the lifecycle needs: a task already marked `expired`
      stays expired. */
  predicate IsExpired(rec: TaskRecord, now: int) {
    IsExpiredAsWritten(rec, now) || rec.status == Some("expired")
  }

  function StateOf(rec: TaskRecord): Dict<Json> {
    match rec.state
    case Some(st) => st
    case None => []
  }

  /** The body of `process_task` once the expiry check has answered
      `expired`. `extracted` is what `_extract_slots` returned; anything but
      an object has no `items()`, so the merge raises `AttributeError` after
      `last_active` has been stamped. */
  function TurnWith(rec: TaskRecord, now: int, extracted: Json, expired: bool): (TaskRecord, Outcome<TurnResult>) {
    if expired then
      (rec.(status := Some("expired")), Returns(TurnResult(ExpiredMessage, false, true)))
    else if !extracted.JObj? then
      (rec.(lastActive := Some(now)), Raises("AttributeError"))
    else
      var taskType := EffectiveType(rec.taskType);
      var st := Merge(StateOf(rec), extracted.members);
      var missing := Missing(Required(taskType), st);
      if missing == [] then
        // the merged dictionary is the record's own only when it had one
        (rec.(lastActive := Some(now), status := Some("completed"),
              state := if rec.state.Some? then Some(st) else None),
         Returns(TurnResult("Task completed! " + CompletionSummary(taskType, st), true, false)))
      else
        (rec.(lastActive := Some(now), status := Some("in_progress"), state := Some(st)),
         Returns(TurnResult(SlotQuestion(missing[0]), false, false)))
  }

  /** `process_task(task_state, text)` as written. */
  function TurnAsWritten(rec: TaskRecord, now: int, extracted: Json): (TaskRecord, Outcome<TurnResult>) {
    TurnWith(rec, now, extracted, IsExpiredAsWritten(rec, now))
  }

  /** `process_task(task_state, text)` with the corrected expiry check. */
  function Turn(rec: TaskRecord, now: int, extracted: Json): (TaskRecord, Outcome<TurnResult>) {
    TurnWith(rec, now, extracted, IsExpired(rec, now))
  }

  /* ---------------- properties of a turn ---------------- */

  /** A turn the expiry check rejects marks the task expired and nothing
      else happens: the extraction result is ignored and no slot changes. */
  lemma ExpiredTurn(rec: TaskRecord, now: int, extracted: Json, other: Json)
    requires IsExpiredAsWritten(rec, now)
    ensures TurnAsWritten(rec, now, extracted) == TurnAsWritten(rec, now, other)
    ensures TurnAsWritten(rec, now, extracted).0 == rec.(status := Some("expired"))
    ensures TurnAsWritten(rec, now, extracted).1 == Returns(TurnResult(ExpiredMessage, false, true))
  {}

  /** A turn the expiry check lets through stamps `last_active`, completes
      exactly when no required slot is missing after the merge, and
      otherwise sets the status to `in_progress` and asks for the first
      missing slot, whatever the status was before (an `expired` task
      included). */
  lemma LiveTurn(rec: TaskRecord, now: int, members: Dict<Json>)
    requires !IsExpiredAsWritten(rec, now)
    ensures var (r, out) := TurnAsWritten(rec, now, JObj(members));
            var missing := Missing(Required(EffectiveType(rec.taskType)), Merge(StateOf(rec), members));
            out.Returns? && r.lastActive == Some(now) && !out.value.expired
            && (out.value.isComplete <==> missing == [])
            && (out.value.isComplete <==> r.status == Some("completed"))
            && (!out.value.isComplete ==> r.status == Some("in_progress") && out.value.message == SlotQuestion(missing[0]))
  {}

  /** A live turn whose extractor returned something other than an object
      raises, with only `last_active` changed. */
  lemma NonObjectRaises(rec: TaskRecord, now: int, extracted: Json)
    requires !IsExpiredAsWritten(rec, now) && !extracted.JObj?
    ensures TurnAsWritten(rec, now, extracted).1.Raises?
    ensures TurnAsWritten(rec, now, extracted).0 == rec.(lastActive := Some(now))
  {}

  /** A completed task stays completed under every later turn. */
  lemma CompletedStaysCompleted(rec: TaskRecord, now: int, extracted: Json)
    requires rec.status == Some("completed")
    requires Missing(Required(EffectiveType(rec.taskType)), StateOf(rec)) == []
    ensures TurnAsWritten(rec, now, extracted).0.status == Some("completed")
    ensures TurnAsWritten(rec, now, extracted).1.Returns? ==> TurnAsWritten(rec, now, extracted).1.value.isComplete
  {
    if extracted.JObj? {
      NothingMissingStays(Required(EffectiveType(rec.taskType)), StateOf(rec), extracted.members);
    }
  }

  /** As written, an `expired` task is not seen as expired again: the next
      turn merges the extraction and, while a slot is missing, sets the
      status back to `in_progress`. */
  lemma ExpiredTaskResumes(rec: TaskRecord, now: int, members: Dict<Json>)
    requires rec.status == Some("expired")
    requires Missing(Required(EffectiveType(rec.taskType)), Merge(StateOf(rec), members)) != []
    ensures TurnAsWritten(rec, now, JObj(members)).0.status == Some("in_progress")
    ensures TurnAsWritten(rec, now, JObj(members)).1 == Returns(TurnResult(SlotQuestion(
              Missing(Required(EffectiveType(rec.taskType)), Merge(StateOf(rec), members))[0]), false, false))
  {}

  /** With the corrected check an expired task is never revived: the turn
      keeps the record as it was and reports expiry. */
  lemma ExpiredIsFinal(rec: TaskRecord, now: int, extracted: Json)
    requires rec.status == Some("expired")
    ensures Turn(rec, now, extracted).0 == rec
    ensures Turn(rec, now, extracted).1 == Returns(TurnResult(ExpiredMessage, false, true))
  {}

  /** The correction changes nothing for a task not marked expired. */
  lemma TurnAgrees(rec: TaskRecord, now: int, extracted: Json)
    requires rec.status != Some("expired")
    ensures Turn(rec, now, extracted) == TurnAsWritten(rec, now, extracted)
  {}

  /** Expiry only becomes more certain as time passes. */
  lemma ExpiryMonotone(rec: TaskRecord, now: int, later: int)
    requires IsExpiredAsWritten(rec, now) && now <= later
    ensures IsExpiredAsWritten(rec, later)
  {}

  /** A task touched at `now` has not expired at `now`. */
  lemma FreshNotExpired(rec: TaskRecord, now: int)
    requires rec.lastActive == Some(now)
    ensures !IsExpiredAsWritten(rec, now)
  {}

  /* ---------------------------------------------------------------------
     The task dictionary, updated in place
     --------------------------------------------------------------------- */

  class TaskState {
    var taskId: string
    var taskType: Option<string>
    var state: Option<Dict<Json>>
    var status: Option<string>
    var lastActive: Option<int>
    var createdAt: int

    function Record(): TaskRecord
      reads this
    {
      TaskRecord(taskId, taskType, state, status, lastActive, createdAt)
    }

    constructor (rec: TaskRecord)
      ensures Record() == rec
    {
      taskId := rec.taskId;
      taskType := rec.taskType;
      state := rec.state;
      status := rec.status;
      lastActive := rec.lastActive;
      createdAt := rec.createdAt;
    }

    /** `process_task(self, text)`, with `extracted` the value the slot
        extractor returned for `text`. */
    method ProcessTask(now: int, extracted: Json) returns (result: Outcome<TurnResult>)
      modifies this
      ensures Record() == TurnAsWritten(old(Record()), now, extracted).0
      ensures result == TurnAsWritten(old(Record()), now, extracted).1
    {
      if IsExpiredAsWritten(Record(), now) {
        status := Some("expired");
        return Returns(TurnResult(ExpiredMessage, false, true));
      }
      lastActive := Some(now);
      if !extracted.JObj? {
        return Raises("AttributeError");
      }
      var kind := EffectiveType(taskType);
      var st := MergeSlots(if state.Some? then state.value else [], extracted.members);
      var missing := Missing(Required(kind), st);
      if missing == [] {
        status := Some("completed");
        if state.Some? {
          state := Some(st);
        }
        return Returns(TurnResult("Task completed! " + CompletionSummary(kind, st), true, false));
      }
      status := Some("in_progress");
      state := Some(st);
      return Returns(TurnResult(SlotQuestion(missing[0]), false, false));
    }
  }

  /** `{s: None for s in required}` */
  function EmptySlots(required: seq<string>): (st: Dict<Json>)
    ensures Keys(st) == required
    ensures forall i | 0 <= i < |st| :: st[i].1 == JNull
  {
    if required == [] then [] else [(required[0], JNull)] + EmptySlots(required[1..])
  }

  /** The record `initialize_task` builds before its first turn. */
  function InitialRecord(taskType: string, taskId: string, now: int): TaskRecord {
    TaskRecord(taskId, Some(taskType), Some(EmptySlots(Required(taskType))), Some("in_progress"), Some(now), now)
  }

  /** No slot of a fresh task is filled. */
  lemma {:induction false} EmptySlotsUnfilled(required: seq<string>, s: string)
    ensures !Filled(EmptySlots(required), s)
  {
    if required != [] {
      EmptySlotsUnfilled(required[1..], s);
    }
  }

  /** `result["message"]`, or the exception the turn raised. */
  function MessageOf(out: Outcome<TurnResult>): Outcome<string> {
    match out
    case Returns(res) => Returns(res.message)
    case Raises(e) => Raises(e)
  }

  /** `initialize_task(task_type, text)`: a fresh record, then exactly one
      turn on the triggering text; `taskId` stands for the random UUID. An
      exception of that turn propagates to the caller. */
  method InitializeTask(taskType: string, taskId: string, now: int, extracted: Json)
    returns (task: TaskState, message: Outcome<string>)
    ensures fresh(task)
    ensures task.Record() == TurnAsWritten(InitialRecord(taskType, taskId, now), now, extracted).0
    ensures message == MessageOf(TurnAsWritten(InitialRecord(taskType, taskId, now), now, extracted).1)
  {
    task := new TaskState(InitialRecord(taskType, taskId, now));
    var result := task.ProcessTask(now, extracted);
    message := MessageOf(result);
  }

  /** The first turn of a new task never reports expiry and, for a ticket
      booking with nothing extracted, asks for the ticket type. */
  lemma FirstTurn(taskType: string, taskId: string, now: int, extracted: Json)
    ensures TurnAsWritten(InitialRecord(taskType, taskId, now), now, extracted).1.Returns? ==>
              !TurnAsWritten(InitialRecord(taskType, taskId, now), now, extracted).1.value.expired
    ensures taskType == "ticket_booking" && extracted == JObj([]) ==>
              TurnAsWritten(InitialRecord(taskType, taskId, now), now, extracted).1 == Returns(TurnResult(SlotQuestion("type"), false, false))
  {
    if taskType == "ticket_booking" && extracted == JObj([]) {
      var st := EmptySlots(TicketSlots);
      EmptySlotsUnfilled(TicketSlots, "type");
      MissingHead(TicketSlots, st, 0);
    }
  }
}
