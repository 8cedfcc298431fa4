/** The SSH debouncer and its worker: a stored record with a time to live, a queue of delayed
    tasks, and handlers that are atomic at one instant. Times are in nanoseconds. */
module Debounce {
  import opened Common

  const SECOND := 1_000_000_000

  /** time.Unix: whole seconds. */
  function Unix(t: nat): nat { t / SECOND }

  /** minutes is SSHDebounceMinutes, ttl the record's time to live. */
  datatype Config = Config(enabled: bool, minutes: nat, ttl: nat) {
    function WindowSeconds(): nat { minutes * 60 }
    function Window(): nat { minutes * 60 * SECOND }
  }

  /** The configuration the code uses: records live for two windows. */
  function DaemonConfig(enabled: bool, minutes: nat): Config {
    Config(enabled, minutes, minutes * 2 * 60 * SECOND)
  }

  datatype DebounceState = DebounceState(lastRequest: nat, pending: bool)
  datatype Stored = Stored(state: DebounceState, expiry: nat)

  /** Redis and the queue of SSH tasks, by due time. */
  datatype Store = Store(record: Option<Stored>, queue: multiset<nat>)

  // ---- The handlers -------------------------------------------------------------------

  function Load(st: Store, now: nat): DebounceState {
    if st.record.Some? && now < st.record.value.expiry then st.record.value.state else DebounceState(0, false)
  }

  function Save(cfg: Config, st: Store, now: nat, s: DebounceState): Store {
    st.(record := Some(Stored(s, now + cfg.ttl)))
  }

  /** redis and enqueue say whether the store and the queue answer. */
  function Trigger(cfg: Config, st: Store, now: nat, redis: bool, enqueue: bool): Store {
    if !cfg.enabled || !redis then st
    else
      var st' := Save(cfg, st, now, DebounceState(Unix(now), true));
      if !Load(st, now).pending && enqueue then st'.(queue := st'.queue + multiset{now + cfg.Window()}) else st'
  }

  function MarkCompleted(cfg: Config, st: Store, now: nat, redis: bool): Store {
    if redis then Save(cfg, st, now, Load(st, now).(pending := false)) else st
  }

  predicate ShouldExecute(cfg: Config, st: Store, now: nat) {
    Unix(now) - Load(st, now).lastRequest >= cfg.WindowSeconds()
  }

  class Debouncer {
    const cfg: Config
    var record: Option<Stored>
    var queue: multiset<nat>

    constructor (cfg: Config)
      ensures this.cfg == cfg && View() == Store(None, multiset{})
    {
      this.cfg, this.record, this.queue := cfg, None, multiset{};
    }

    function View(): Store
      reads this
    {
      Store(record, queue)
    }

    method GetDebounceState(now: nat, redis: bool) returns (ok: bool, s: DebounceState)
      ensures ok == redis
      ensures ok ==> s == Load(View(), now)
      ensures ok && record.Some? && now < record.value.expiry ==> s == record.value.state
      ensures ok && (record.None? || now >= record.value.expiry) ==> s == DebounceState(0, false)
    {
      s := DebounceState(0, false);
      if !redis { return false, s; }
      if record.Some? && now < record.value.expiry { s := record.value.state; }
      ok := true;
    }

    method SaveDebounceState(now: nat, redis: bool, s: DebounceState) returns (ok: bool)
      modifies this`record
      ensures ok == redis
      ensures View() == if ok then Save(cfg, old(View()), now, s) else old(View())
      ensures record == if redis then Some(Stored(s, now + cfg.ttl)) else old(record)
    {
      if redis { record := Some(Stored(s, now + cfg.ttl)); }
      ok := redis;
    }

    /** Nothing at all when SSH tasks are switched off or the store does not answer. Otherwise the
        record names this second and is pending for a whole time to live, and one task is queued, a
        window from now, exactly when no live record was pending and the queue answers. */
    method TriggerSSH(now: nat, redis: bool, enqueue: bool) returns (ok: bool)
      modifies this
      ensures View() == Trigger(cfg, old(View()), now, redis, enqueue)
      ensures !cfg.enabled || !redis ==> record == old(record) && queue == old(queue) && ok == !cfg.enabled
      ensures cfg.enabled && redis ==>
        record == Some(Stored(DebounceState(now / 1_000_000_000, true), now + cfg.ttl))
      ensures cfg.enabled && redis ==>
        var r := old(record);
        var pending := r.Some? && now < r.value.expiry && r.value.state.pending;
        var task := if !pending && enqueue then multiset{now + cfg.minutes * 60_000_000_000} else multiset{};
        && queue == old(queue) + task
        && ok == (pending || enqueue)
    {
      if !cfg.enabled { return true; }
      var got, state := GetDebounceState(now, redis);
      if !got { return false; }
      state := state.(lastRequest := Unix(now));
      if !state.pending {
        state := state.(pending := true);
        ok := SaveDebounceState(now, redis, state);
        if !ok || !enqueue { return false; }
        queue := queue + multiset{now + cfg.Window()};
      } else {
        ok := SaveDebounceState(now, redis, state);
      }
    }

    method MarkTaskCompleted(now: nat, redis: bool) returns (ok: bool)
      modifies this`record
      ensures ok == redis && View() == MarkCompleted(cfg, old(View()), now, redis)
      ensures !redis ==> record == old(record)
      ensures redis ==>
        var r := old(record);
        var last := if r.Some? && now < r.value.expiry then r.value.state.lastRequest else 0;
        record == Some(Stored(DebounceState(last, false), now + cfg.ttl))
    {
      var got, state := GetDebounceState(now, redis);
      if !got { return false; }
      ok := SaveDebounceState(now, redis, state.(pending := false));
    }

    method ShouldExecuteSSH(now: nat, redis: bool) returns (ok: bool, execute: bool)
      ensures ok == redis && (ok ==> execute == ShouldExecute(cfg, View(), now))
      ensures ok ==>
        var last := if record.Some? && now < record.value.expiry then record.value.state.lastRequest else 0;
        execute <==> now / 1_000_000_000 - last >= cfg.minutes * 60
    {
      var got, state := GetDebounceState(now, redis);
      ok, execute := got, got && Unix(now) - state.lastRequest >= cfg.WindowSeconds();
    }

    /** The first half of SSHHandler.ProcessTask: reschedule, give up, or start the command. */
    method DecideTask(now: nat, redis: bool, enqueue: bool, blank: bool) returns (ok: bool, start: bool)
      modifies this`queue
      ensures record == old(record)
      ensures var again := redis && enqueue && !ShouldExecute(cfg, old(View()), now);
        queue == old(queue) + (if again then multiset{now + cfg.Window()} else multiset{})
      ensures start <==> redis && !blank && ShouldExecute(cfg, old(View()), now)
      ensures ok <==> redis && (if ShouldExecute(cfg, old(View()), now) then !blank else enqueue)
    {
      var execute;
      start := false;
      ok, execute := ShouldExecuteSSH(now, redis);
      if !ok { return; }
      if !execute {
        if !enqueue { return false, false; }
        queue := queue + multiset{now + cfg.Window()};
        return true, false;
      }
      if blank { return false, false; }
      start := true;
    }

    /** The second half: the command has ended, well or badly, and the task is marked completed
        either way; only the error returned differs. */
    method FinishTask(now: nat, redis: bool, succeeded: bool) returns (ok: bool)
      modifies this`record
      ensures View() == MarkCompleted(cfg, old(View()), now, redis)
      ensures ok <==> succeeded && redis
      ensures !redis ==> record == old(record)
      ensures redis ==>
        var r := old(record);
        var last := if r.Some? && now < r.value.expiry then r.value.state.lastRequest else 0;
        record == Some(Stored(DebounceState(last, false), now + cfg.ttl))
    {
      var marked := MarkTaskCompleted(now, redis);
      ok := succeeded && marked;
    }

    /** ProcessTask of a task taken off the queue at time now, with its command ending at end;
        stored says whether the store answers then. */
    method ProcessTask(now: nat, end: nat, redis: bool, enqueue: bool, blank: bool, succeeded: bool, stored: bool)
      returns (ok: bool)
      modifies this
      ensures redis && !ShouldExecute(cfg, old(View()), now) ==>
        ok == enqueue && record == old(record) &&
        queue == old(queue) + (if enqueue then multiset{now + cfg.Window()} else multiset{})
      ensures redis && ShouldExecute(cfg, old(View()), now) && !blank ==>
        ok == (succeeded && stored) && View() == MarkCompleted(cfg, old(View()), end, stored)
      ensures !redis || (ShouldExecute(cfg, old(View()), now) && blank) ==> !ok && View() == old(View())
      ensures !redis ==> !ok && record == old(record) && queue == old(queue)
      ensures var r := old(record);
        var last := if r.Some? && now < r.value.expiry then r.value.state.lastRequest else 0;
        var due := now / 1_000_000_000 - last >= cfg.minutes * 60;
        var again := if enqueue then multiset{now + cfg.minutes * 60_000_000_000} else multiset{};
        && (redis && !due ==> ok == enqueue && record == r && queue == old(queue) + again)
        && (redis && due && blank ==> !ok && record == r && queue == old(queue))
        && (redis && due && !blank ==> ok == (succeeded && stored) && queue == old(queue))
        && (redis && due && !blank && !stored ==> record == r)
      ensures var r := old(record);
        var last := if r.Some? && now < r.value.expiry then r.value.state.lastRequest else 0;
        var then_ := if r.Some? && end < r.value.expiry then r.value.state.lastRequest else 0;
        redis && now / 1_000_000_000 - last >= cfg.minutes * 60 && !blank && stored ==>
        record == Some(Stored(DebounceState(then_, false), end + cfg.ttl))
    {
      var start;
      ok, start := DecideTask(now, redis, enqueue, blank);
      if start { ok := FinishTask(end, stored, succeeded); }
    }
  }

  // ---- The timed machine -----------------------------------------------------------------

  /** What the run has done so far: the time of the last saved trigger, the time of the last
      decision to execute since then, and the reschedulings since then. */
  datatype History = History(trigger: Option<nat>, executed: Option<nat>, reschedules: nat)

  datatype State = State(now: nat, store: Store, running: nat, past: History)

  datatype Event =
    | Tick(dt: nat)
    | TriggerSSH(redis: bool, enqueue: bool)
    | Process(due: nat, redis: bool, enqueue: bool, blank: bool)
    | Complete(redis: bool, succeeded: bool)
    | Redeliver(due: nat)        // any retry the queue makes on its own

  predicate Enabled(s: State, e: Event) {
    match e
    case Process(due, _, _, _) => due in s.store.queue
    case Complete(_, _) => s.running > 0
    case _ => true
  }

  function Step(cfg: Config, s: State, e: Event): State {
    if !Enabled(s, e) then s else
    match e
    case Tick(dt) => s.(now := s.now + dt)
    case TriggerSSH(redis, enqueue) =>
      var st := Trigger(cfg, s.store, s.now, redis, enqueue);
      if cfg.enabled && redis then s.(store := st, past := History(Some(s.now), None, 0)) else s
    case Process(due, redis, enqueue, blank) =>
      var taken := s.store.(queue := s.store.queue - multiset{due});
      if !redis then s.(store := taken)
      else if !ShouldExecute(cfg, s.store, s.now) then
        if !enqueue then s.(store := taken)
        else s.(store := taken.(queue := taken.queue + multiset{s.now + cfg.Window()}),
                past := s.past.(reschedules := s.past.reschedules + 1))
      else
        s.(store := taken, running := s.running + (if blank then 0 else 1), past := s.past.(executed := Some(s.now)))
    case Complete(redis, _) => s.(store := MarkCompleted(cfg, s.store, s.now, redis), running := s.running - 1)
    case Redeliver(due) => s.(store := s.store.(queue := s.store.queue + multiset{due}))
  }

  function Run(cfg: Config, s: State, es: seq<Event>): State {
    if es == [] then s else Step(cfg, Run(cfg, s, es[..|es| - 1]), es[|es| - 1])
  }

  const START := State(0, Store(None, multiset{}), 0, History(None, None, 0))

  // ---- The quiet window, unconditionally ----------------------------------------------------

  /** The record carries the last saved trigger, or that trigger is a whole time to live old. */
  ghost predicate Remembers(cfg: Config, s: State) {
    s.past.trigger.Some? ==>
      var last := s.past.trigger.value;
      && last <= s.now
      && ((&& s.store.record.Some? && s.store.record.value.state.lastRequest == Unix(last)
           && s.store.record.value.expiry >= last + cfg.ttl)
          || s.now >= last + cfg.ttl)
  }

  lemma StepRemembers(cfg: Config, s: State, e: Event)
    requires Remembers(cfg, s)
    ensures Remembers(cfg, Step(cfg, s, e))
  {
  }

  lemma {:induction false} RunRemembers(cfg: Config, s: State, es: seq<Event>)
    requires Remembers(cfg, s)
    ensures Remembers(cfg, Run(cfg, s, es))
  {
    if es != [] {
      hide Step, Remembers;
      RunRemembers(cfg, s, es[..|es| - 1]);
      StepRemembers(cfg, Run(cfg, s, es[..|es| - 1]), es[|es| - 1]);
    }
  }

  /** In every run, with any number of queued tasks, late or early ones, failed enqueues, failed
      commands, retries and expired records, a decision to execute comes more than a window less
      one second after the last saved trigger. */
  lemma QuietWindow(cfg: Config, es: seq<Event>, e: Event)
    requires cfg.ttl >= cfg.Window()
    requires var s := Run(cfg, START, es);
      && e.Process? && Enabled(s, e) && e.redis && ShouldExecute(cfg, s.store, s.now)
      && s.past.trigger.Some?
    ensures var s := Run(cfg, START, es); s.now > s.past.trigger.value + cfg.Window() - SECOND
  {
    RunRemembers(cfg, START, es);
  }

  // ---- Orderly runs ---------------------------------------------------------------------------

  /** Punctual tasks, a store and queue that answer, a command that ends before the record
      expires, and no trigger while it runs. */
  ghost predicate Orderly(cfg: Config, s: State, e: Event) {
    match e
    case Tick(dt) =>
      && (forall due :: due in s.store.queue ==> s.now + dt <= due)
      && (s.running > 0 ==> s.store.record.Some? && s.now + dt < s.store.record.value.expiry)
    case TriggerSSH(redis, enqueue) => redis && enqueue && s.running == 0
    case Process(due, redis, enqueue, blank) => redis && enqueue && !blank && due == s.now
    case Complete(redis, _) => redis
    case Redeliver(_) => false
  }

  ghost predicate OrderlyRun(cfg: Config, s: State, es: seq<Event>) {
    es == [] || (OrderlyRun(cfg, s, es[..|es| - 1]) && Orderly(cfg, Run(cfg, s, es[..|es| - 1]), es[|es| - 1]))
  }

  /** A task is queued or its command runs: the record is alive and says so. */
  ghost predicate Busy(cfg: Config, s: State) {
    && s.past.trigger.Some? && s.past.trigger.value <= s.now
    && var last := s.past.trigger.value;
    && s.store.record == Some(Stored(DebounceState(Unix(last), true), last + cfg.ttl))
    && s.past.reschedules <= 1
  }

  ghost predicate ExecutedInTime(cfg: Config, past: History) {
    && past.trigger.Some? && past.executed.Some?
    && past.reschedules <= 1
    && Unix(past.executed.value) >= Unix(past.trigger.value) + cfg.WindowSeconds()
    && past.executed.value < past.trigger.value + 2 * cfg.Window()
  }

  ghost predicate Inv(cfg: Config, s: State) {
    || (&& s.running == 0 && s.store.queue == multiset{} && !Load(s.store, s.now).pending
        && (s.past.trigger.Some? ==> ExecutedInTime(cfg, s.past)))
    || (&& s.running == 1 && s.store.queue == multiset{} && Busy(cfg, s)
        && s.now < s.store.record.value.expiry && ExecutedInTime(cfg, s.past))
    || (&& s.running == 0 && Busy(cfg, s) && s.past.executed.None?
        && exists due :: s.store.queue == multiset{due} && DueInTime(cfg, s, due))
  }

  ghost predicate DueInTime(cfg: Config, s: State, due: nat)
    requires s.past.trigger.Some?
  {
    && s.now <= due < s.past.trigger.value + 2 * cfg.Window()
    && (s.past.reschedules == 1 ==> due >= s.past.trigger.value + cfg.Window())
  }

  lemma QueuedStepKeepsInv(cfg: Config, s: State, e: Event, due: nat)
    requires cfg.enabled && cfg.minutes > 0 && cfg.ttl >= 2 * cfg.Window() && Orderly(cfg, s, e)
    requires s.running == 0 && Busy(cfg, s) && s.past.executed.None?
    requires s.store.queue == multiset{due} && DueInTime(cfg, s, due)
    ensures Inv(cfg, Step(cfg, s, e))
  {
    var s' := Step(cfg, s, e);
    if e.Tick? {
      assert due in s.store.queue;
      assert DueInTime(cfg, s', due);
    } else if e.TriggerSSH? {
      assert DueInTime(cfg, s', due);
    } else if e.Process? && e.due == due {
      assert s.store.queue - multiset{due} == multiset{};
      if !ShouldExecute(cfg, s.store, s.now) {
        assert s'.store.queue == multiset{s.now + cfg.Window()};
        assert DueInTime(cfg, s', s.now + cfg.Window());
      }
    }
  }

  lemma StepKeepsInv(cfg: Config, s: State, e: Event)
    requires cfg.enabled && cfg.minutes > 0 && cfg.ttl >= 2 * cfg.Window()
    requires Inv(cfg, s) && Orderly(cfg, s, e)
    ensures Inv(cfg, Step(cfg, s, e))
  {
    if s.store.queue != multiset{} {
      var due :| s.store.queue == multiset{due} && DueInTime(cfg, s, due);
      QueuedStepKeepsInv(cfg, s, e, due);
    } else if e.TriggerSSH? {
      var s' := Step(cfg, s, e);
      assert s'.store.queue == multiset{s.now + cfg.Window()};
      assert DueInTime(cfg, s', s.now + cfg.Window());
    }
  }

  lemma {:induction false} RunKeepsInv(cfg: Config, es: seq<Event>)
    requires cfg.enabled && cfg.minutes > 0 && cfg.ttl >= 2 * cfg.Window() && OrderlyRun(cfg, START, es)
    ensures Inv(cfg, Run(cfg, START, es))
  {
    if es != [] {
      RunKeepsInv(cfg, es[..|es| - 1]);
      StepKeepsInv(cfg, Run(cfg, START, es[..|es| - 1]), es[|es| - 1]);
    }
  }

  /** In orderly runs of the daemon the stored pending flag is true exactly when an SSH task is
      queued or its command is running, and then it is one task; a queued task is due before
      the last request plus two windows, which is when the record expires. */
  lemma PendingFlagIsExact(minutes: nat, es: seq<Event>)
    requires minutes > 0 && OrderlyRun(DaemonConfig(true, minutes), START, es)
    ensures var cfg := DaemonConfig(true, minutes); var s := Run(cfg, START, es);
      && (Load(s.store, s.now).pending <==> |s.store.queue| + s.running == 1)
      && |s.store.queue| + s.running <= 1
      && (s.store.queue != multiset{} ==> s.past.trigger.Some? && s.store.record.Some?)
      && (forall due :: due in s.store.queue ==>
          s.now <= due < s.past.trigger.value + 2 * cfg.Window() == s.store.record.value.expiry)
  {
    var cfg := DaemonConfig(true, minutes);
    RunKeepsInv(cfg, es);
  }

  /** Every trigger is served: two windows after the last one, the command has been started, at
      a time at least a window after it in whole seconds and less than two windows, with at
      most one rescheduling in between, however many triggers came before. */
  lemma EveryTriggerIsServed(minutes: nat, es: seq<Event>)
    requires minutes > 0 && OrderlyRun(DaemonConfig(true, minutes), START, es)
    requires Run(DaemonConfig(true, minutes), START, es).past.trigger.Some?
    ensures var cfg := DaemonConfig(true, minutes); var s := Run(cfg, START, es);
      || ExecutedInTime(cfg, s.past)
      || (s.now < s.past.trigger.value + 2 * cfg.Window() && |s.store.queue| == 1 && s.past.reschedules <= 1)
  {
    RunKeepsInv(DaemonConfig(true, minutes), es);
  }

  /** The event takes a task that comes too early and queues it again for a window later. */
  predicate Postpones(cfg: Config, s: State, e: Event) {
    && e.Process? && e.due in s.store.queue && e.redis && e.enqueue
    && Unix(s.now) - Load(s.store, s.now).lastRequest < cfg.WindowSeconds()
  }

  predicate SavesTrigger(cfg: Config, e: Event) {
    e.TriggerSSH? && cfg.enabled && e.redis
  }

  lemma StepCountsPostponements(cfg: Config, s: State, e: Event)
    ensures var before, after := s.past.reschedules, Step(cfg, s, e).past.reschedules;
      after == if SavesTrigger(cfg, e) then 0 else if Postpones(cfg, s, e) then before + 1 else before
    ensures s.past.trigger.Some? ==> Step(cfg, s, e).past.trigger.Some?
  {
  }

  /** The count of the history is at least one after a postponement with no trigger since. */
  lemma {:induction false} PostponementIsCounted(cfg: Config, es: seq<Event>, i: nat)
    requires i < |es| && Postpones(cfg, Run(cfg, START, es[..i]), es[i])
    requires forall k :: i < k < |es| ==> !SavesTrigger(cfg, es[k])
    ensures Run(cfg, START, es).past.reschedules > 0
  {
    var front := es[..|es| - 1];
    StepCountsPostponements(cfg, Run(cfg, START, front), es[|es| - 1]);
    hide Step;
    if i < |es| - 1 {
      assert front[..i] == es[..i];
      PostponementIsCounted(cfg, front, i);
    }
  }

  lemma {:induction false} OrderlyPrefix(cfg: Config, es: seq<Event>, k: nat)
    requires k <= |es| && OrderlyRun(cfg, START, es)
    ensures OrderlyRun(cfg, START, es[..k])
  {
    if k < |es| {
      OrderlyPrefix(cfg, es[..|es| - 1], k);
      assert es[..|es| - 1][..k] == es[..k];
    } else {
      assert es[..k] == es;
    }
  }

  lemma AtMostOneIsCounted(minutes: nat, es: seq<Event>)
    requires minutes > 0 && OrderlyRun(DaemonConfig(true, minutes), START, es)
    ensures var s := Run(DaemonConfig(true, minutes), START, es);
      && (s.store.queue != multiset{} ==> s.past.trigger.Some?)
      && (s.past.trigger.Some? ==> s.past.reschedules <= 1)
  {
    hide Run, OrderlyRun;
    RunKeepsInv(DaemonConfig(true, minutes), es);
  }

  lemma SecondIsCounted(cfg: Config, es: seq<Event>, i: nat)
    requires i < |es| - 1 && Postpones(cfg, Run(cfg, START, es[..i]), es[i])
    requires forall k :: i < k < |es| - 1 ==> !es[k].TriggerSSH?
    requires Postpones(cfg, Run(cfg, START, es[..|es| - 1]), es[|es| - 1])
    ensures var s := Run(cfg, START, es[..|es| - 1]); var s' := Run(cfg, START, es);
      && s.store.queue != multiset{} && s'.past.reschedules > 1
      && (s.past.trigger.Some? ==> s'.past.trigger.Some?)
  {
    var front := es[..|es| - 1];
    assert front[..i] == es[..i];
    assert es[|es| - 1].due in Run(cfg, START, front).store.queue;
    StepCountsPostponements(cfg, Run(cfg, START, front), es[|es| - 1]);
    hide Step, Postpones;
    PostponementIsCounted(cfg, front, i);
  }

  /** Between two postponements of an orderly run there is a trigger: no trigger is put off twice. */
  lemma PostponedOnce(minutes: nat, es: seq<Event>, i: nat, j: nat)
    requires minutes > 0 && OrderlyRun(DaemonConfig(true, minutes), START, es) && i < j < |es|
    requires var cfg := DaemonConfig(true, minutes);
      Postpones(cfg, Run(cfg, START, es[..i]), es[i]) && Postpones(cfg, Run(cfg, START, es[..j]), es[j])
    ensures exists k :: i < k < j && es[k].TriggerSSH?
  {
    hide Run, OrderlyRun, Postpones, DaemonConfig;
    if forall k :: i < k < j ==> !es[k].TriggerSSH? {
      var cfg, upto := DaemonConfig(true, minutes), es[..j + 1];
      assert upto[..i] == es[..i] && upto[..j] == es[..j];
      SecondIsCounted(cfg, upto, i);
      OrderlyPrefix(cfg, es, j);
      OrderlyPrefix(cfg, es, j + 1);
      AtMostOneIsCounted(minutes, es[..j]);
      AtMostOneIsCounted(minutes, upto);
    }
  }

  // ---- A trigger during the command -----------------------------------------------------

  /** Nothing but a new trigger or a retry of the queue can start a command from here. */
  ghost predicate Quiet(s: State) {
    s.store.queue == multiset{} && s.past.executed.None?
  }

  lemma {:induction false} QuietStaysQuiet(cfg: Config, s: State, es: seq<Event>)
    requires Quiet(s) && forall e :: e in es ==> !e.TriggerSSH? && !e.Redeliver?
    ensures Quiet(Run(cfg, s, es))
  {
    if es != [] {
      QuietStaysQuiet(cfg, s, es[..|es| - 1]);
      assert es[|es| - 1] in es;
    }
  }

  /** Why service excludes it: a trigger that arrives between the decision and the completion
      enqueues nothing, the completion then clears its flag, and no later event short of another
      trigger or a retry ever serves it. */
  lemma TriggerDuringCommandIsSwallowed(minutes: nat, es: seq<Event>, dt: nat, later: seq<Event>)
    requires minutes > 0 && OrderlyRun(DaemonConfig(true, minutes), START, es)
    requires Run(DaemonConfig(true, minutes), START, es).running > 0
    requires forall e :: e in later ==> !e.TriggerSSH? && !e.Redeliver?
    ensures var cfg := DaemonConfig(true, minutes); var s := Run(cfg, START, es);
      var done := Step(cfg, Step(cfg, Step(cfg, s, TriggerSSH(true, true)), Tick(dt)), Complete(true, true));
      && done.past.trigger == Some(s.now) && !Load(done.store, done.now).pending
      && Run(cfg, done, later).past.executed == None
  {
    var cfg := DaemonConfig(true, minutes);
    var s := Run(cfg, START, es);
    RunKeepsInv(cfg, es);
    var waited := Step(cfg, Step(cfg, s, TriggerSSH(true, true)), Tick(dt));
    QuietStaysQuiet(cfg, Step(cfg, waited, Complete(true, true)), later);
  }

  // ---- Exactly when a trigger is served ------------------------------------------------------

  /** Orderly, but with triggers at any time and a store and queue that may fail at any call. */
  ghost predicate Lenient(cfg: Config, s: State, e: Event) {
    match e
    case Tick(dt) =>
      && (forall due :: due in s.store.queue ==> s.now + dt <= due)
      && (s.running > 0 ==> s.store.record.Some? && s.now + dt < s.store.record.value.expiry)
    case Process(due, _, _, blank) => !blank && due == s.now
    case Redeliver(_) => false
    case _ => true
  }

  ghost predicate LenientRun(cfg: Config, s: State, es: seq<Event>) {
    es == [] || (LenientRun(cfg, s, es[..|es| - 1]) && Lenient(cfg, Run(cfg, s, es[..|es| - 1]), es[|es| - 1]))
  }

  /** missed: the last saved trigger will not be served. orphan: the pending flag is set with no
      task behind it, until this time unless renewed. */
  datatype Fate = Fate(missed: bool, orphan: Option<nat>)

  /** A saved trigger is missed when a command is running, when it falls before the end of an
      orphaned flag, which it renews, or when it has to enqueue a task and cannot; otherwise a
      task is queued behind it. That task orphans its flag when it cannot read the record or
      cannot reschedule itself, and so does a completion that is not recorded. */
  function FateStep(cfg: Config, s: State, f: Fate, e: Event): Fate {
    if !Enabled(s, e) then f else
    match e
    case TriggerSSH(redis, enqueue) =>
      if !cfg.enabled || !redis then f
      else if s.running > 0 then Fate(true, None)
      else if s.store.queue != multiset{} then Fate(false, None)
      else if (f.orphan.Some? && s.now < f.orphan.value) || !enqueue then Fate(true, Some(s.now + cfg.ttl))
      else Fate(false, None)
    case Process(_, redis, enqueue, _) =>
      if s.past.trigger.Some? && (!redis || (!ShouldExecute(cfg, s.store, s.now) && !enqueue))
      then Fate(true, Some(s.past.trigger.value + cfg.ttl))
      else f
    case Complete(redis, _) =>
      if s.past.trigger.Some? && !redis then Fate(f.missed, Some(s.past.trigger.value + cfg.ttl)) else f
    case _ => f
  }

  function FateOf(cfg: Config, es: seq<Event>): Fate {
    if es == [] then Fate(false, None)
    else FateStep(cfg, Run(cfg, START, es[..|es| - 1]), FateOf(cfg, es[..|es| - 1]), es[|es| - 1])
  }

  /** The last trigger's command has started in time, or its one task is still due in time. */
  ghost predicate Served(cfg: Config, s: State) {
    || ExecutedInTime(cfg, s.past)
    || (s.past.trigger.Some? && s.past.executed.None? && s.past.reschedules <= 1
        && exists due :: s.store.queue == multiset{due} && DueInTime(cfg, s, due))
  }

  ghost predicate ServedOrNot(cfg: Config, s: State, f: Fate) {
    s.past.trigger.Some? ==> if f.missed then s.past.executed.None? else ExecutedInTime(cfg, s.past)
  }

  ghost predicate Resting(cfg: Config, s: State, f: Fate) {
    && s.running == 0 && s.store.queue == multiset{} && !Load(s.store, s.now).pending
    && f.orphan.None? && ServedOrNot(cfg, s, f)
  }

  ghost predicate Commanding(cfg: Config, s: State, f: Fate) {
    && s.running == 1 && s.store.queue == multiset{} && Busy(cfg, s) && s.now < s.store.record.value.expiry
    && f.orphan.None? && ServedOrNot(cfg, s, f)
  }

  ghost predicate Queued(cfg: Config, s: State, f: Fate) {
    && s.running == 0 && Busy(cfg, s) && s.past.executed.None? && f == Fate(false, None)
    && exists due :: s.store.queue == multiset{due} && DueInTime(cfg, s, due)
  }

  ghost predicate Orphaned(cfg: Config, s: State, f: Fate) {
    && s.running == 0 && s.store.queue == multiset{} && Busy(cfg, s)
    && f.orphan == Some(s.past.trigger.value + cfg.ttl) && ServedOrNot(cfg, s, f)
  }

  ghost predicate FateInv(cfg: Config, s: State, f: Fate) {
    Resting(cfg, s, f) || Commanding(cfg, s, f) || Queued(cfg, s, f) || Orphaned(cfg, s, f)
  }

  lemma RestingStep(cfg: Config, s: State, f: Fate, e: Event)
    requires cfg.enabled && cfg.minutes > 0 && cfg.ttl >= 2 * cfg.Window() && Resting(cfg, s, f) && Lenient(cfg, s, e)
    ensures FateInv(cfg, Step(cfg, s, e), FateStep(cfg, s, f, e))
  {
    var s', f' := Step(cfg, s, e), FateStep(cfg, s, f, e);
    if e.TriggerSSH? && e.redis {
      if e.enqueue {
        assert s'.store.queue == multiset{s.now + cfg.Window()};
        assert DueInTime(cfg, s', s.now + cfg.Window());
        assert Queued(cfg, s', f');
      } else {
        assert Orphaned(cfg, s', f');
      }
    } else {
      assert Resting(cfg, s', f');
    }
  }

  lemma CommandingStep(cfg: Config, s: State, f: Fate, e: Event)
    requires cfg.enabled && cfg.minutes > 0 && cfg.ttl >= 2 * cfg.Window()
    requires Commanding(cfg, s, f) && Lenient(cfg, s, e)
    ensures FateInv(cfg, Step(cfg, s, e), FateStep(cfg, s, f, e))
  {
    var s', f' := Step(cfg, s, e), FateStep(cfg, s, f, e);
    if e.Complete? {
      assert if e.redis then Resting(cfg, s', f') else Orphaned(cfg, s', f');
    } else {
      assert Commanding(cfg, s', f');
    }
  }

  lemma QueuedStep(cfg: Config, s: State, f: Fate, e: Event, due: nat)
    requires cfg.enabled && cfg.minutes > 0 && cfg.ttl >= 2 * cfg.Window() && Queued(cfg, s, f) && Lenient(cfg, s, e)
    requires s.store.queue == multiset{due} && DueInTime(cfg, s, due)
    ensures FateInv(cfg, Step(cfg, s, e), FateStep(cfg, s, f, e))
  {
    var s', f' := Step(cfg, s, e), FateStep(cfg, s, f, e);
    assert due in s.store.queue;
    if e.Process? && e.due == due {
      QueuedProcess(cfg, s, f, e, due);
    } else {
      assert e.TriggerSSH? && e.redis ==> Load(s.store, s.now).pending;
      assert s'.store.queue == s.store.queue && DueInTime(cfg, s', due);
      assert Queued(cfg, s', f');
    }
  }

  lemma QueuedProcess(cfg: Config, s: State, f: Fate, e: Event, due: nat)
    requires cfg.enabled && cfg.minutes > 0 && cfg.ttl >= 2 * cfg.Window() && Queued(cfg, s, f) && Lenient(cfg, s, e)
    requires s.store.queue == multiset{due} && DueInTime(cfg, s, due) && e.Process? && e.due == due
    ensures FateInv(cfg, Step(cfg, s, e), FateStep(cfg, s, f, e))
  {
    var s', f' := Step(cfg, s, e), FateStep(cfg, s, f, e);
    assert s.store.queue - multiset{due} == multiset{};
    if !e.redis || (!ShouldExecute(cfg, s.store, s.now) && !e.enqueue) {
      assert Orphaned(cfg, s', f');
    } else if ShouldExecute(cfg, s.store, s.now) {
      assert Commanding(cfg, s', f');
    } else {
      assert s'.store.queue == multiset{s.now + cfg.Window()};
      assert DueInTime(cfg, s', s.now + cfg.Window());
      assert Queued(cfg, s', f');
    }
  }

  lemma OrphanedStep(cfg: Config, s: State, f: Fate, e: Event)
    requires cfg.enabled && cfg.minutes > 0 && cfg.ttl >= 2 * cfg.Window() && Orphaned(cfg, s, f) && Lenient(cfg, s, e)
    ensures FateInv(cfg, Step(cfg, s, e), FateStep(cfg, s, f, e))
  {
    var s', f' := Step(cfg, s, e), FateStep(cfg, s, f, e);
    if e.TriggerSSH? && e.redis && s.now >= f.orphan.value && e.enqueue {
      assert s'.store.queue == multiset{s.now + cfg.Window()};
      assert DueInTime(cfg, s', s.now + cfg.Window());
      assert Queued(cfg, s', f');
    } else {
      assert Orphaned(cfg, s', f');
    }
  }

  lemma {:induction false} RunKeepsFate(cfg: Config, es: seq<Event>)
    requires cfg.enabled && cfg.minutes > 0 && cfg.ttl >= 2 * cfg.Window() && LenientRun(cfg, START, es)
    ensures FateInv(cfg, Run(cfg, START, es), FateOf(cfg, es))
  {
    if es == [] {
      assert Resting(cfg, START, Fate(false, None));
    } else {
      var s, f, e := Run(cfg, START, es[..|es| - 1]), FateOf(cfg, es[..|es| - 1]), es[|es| - 1];
      RunKeepsFate(cfg, es[..|es| - 1]);
      hide Step, FateStep, Resting, Commanding, Orphaned, Lenient;
      if Resting(cfg, s, f) { RestingStep(cfg, s, f, e); }
      else if Commanding(cfg, s, f) { CommandingStep(cfg, s, f, e); }
      else if Orphaned(cfg, s, f) { OrphanedStep(cfg, s, f, e); }
      else {
        var due :| s.store.queue == multiset{due} && DueInTime(cfg, s, due);
        QueuedStep(cfg, s, f, e, due);
      }
    }
  }

  /** Whatever the store and the queue answer and whenever triggers come, punctual tasks and
      commands given: the last trigger is served if and only if it was not missed, and a missed
      one finds no task queued and no command started for it. */
  lemma ServedIff(minutes: nat, es: seq<Event>)
    requires minutes > 0 && LenientRun(DaemonConfig(true, minutes), START, es)
    requires Run(DaemonConfig(true, minutes), START, es).past.trigger.Some?
    ensures var cfg := DaemonConfig(true, minutes); var s := Run(cfg, START, es);
      && (Served(cfg, s) <==> !FateOf(cfg, es).missed)
      && (FateOf(cfg, es).missed <==> Quiet(s))
  {
    RunKeepsFate(DaemonConfig(true, minutes), es);
  }

  /** And never will: no run that goes on without another saved trigger starts a command. */
  lemma MissedIsNeverServed(minutes: nat, es: seq<Event>, later: seq<Event>)
    requires minutes > 0 && LenientRun(DaemonConfig(true, minutes), START, es)
    requires Run(DaemonConfig(true, minutes), START, es).past.trigger.Some?
    requires FateOf(DaemonConfig(true, minutes), es).missed
    requires forall e :: e in later ==> !e.TriggerSSH? && !e.Redeliver?
    ensures var cfg := DaemonConfig(true, minutes); Quiet(Run(cfg, Run(cfg, START, es), later))
  {
    var cfg := DaemonConfig(true, minutes);
    ServedIff(minutes, es);
    QuietStaysQuiet(cfg, Run(cfg, START, es), later);
  }

  /** A gap of two windows without a saved trigger, and no command running: the next trigger that
      can enqueue is served, whatever went wrong before. */
  lemma GapRestores(minutes: nat, es: seq<Event>)
    requires minutes > 0 && LenientRun(DaemonConfig(true, minutes), START, es)
    requires var cfg := DaemonConfig(true, minutes); var s := Run(cfg, START, es);
      s.running == 0 && (s.past.trigger.Some? ==> s.now >= s.past.trigger.value + 2 * cfg.Window())
    ensures var cfg := DaemonConfig(true, minutes); var es' := es + [TriggerSSH(true, true)];
      LenientRun(cfg, START, es') && !FateOf(cfg, es').missed && Served(cfg, Run(cfg, START, es'))
  {
    var cfg, es' := DaemonConfig(true, minutes), es + [TriggerSSH(true, true)];
    assert es'[..|es|] == es;
    RunKeepsFate(cfg, es);
    assert LenientRun(cfg, START, es') && !FateOf(cfg, es').missed;
    TriggerIsSaved(cfg, Run(cfg, START, es));
    hide *;
    ServedIff(minutes, es');
  }

  lemma TriggerIsSaved(cfg: Config, s: State)
    requires cfg.enabled
    ensures Step(cfg, s, TriggerSSH(true, true)).past.trigger.Some?
  {
  }

  // ---- Tasks that fail are retried -------------------------------------------------------------

  /** ProcessTask returns an error: the record cannot be read, the task cannot be rescheduled, the
      command fails or its completion is not recorded. The queue then owes a retry. */
  predicate TaskFails(cfg: Config, s: State, e: Event) {
    match e
    case Process(_, redis, enqueue, _) => !redis || (!ShouldExecute(cfg, s.store, s.now) && !enqueue)
    case Complete(redis, succeeded) => !redis || !succeeded
    case _ => false
  }

  function OwedStep(cfg: Config, s: State, owed: nat, e: Event): nat {
    if !Enabled(s, e) then owed
    else if TaskFails(cfg, s, e) then owed + 1
    else if e.Redeliver? && owed > 0 then owed - 1
    else owed
  }

  /** The retries the queue owes after a run. */
  function Owed(cfg: Config, es: seq<Event>): nat {
    if es == [] then 0 else OwedStep(cfg, Run(cfg, START, es[..|es| - 1]), Owed(cfg, es[..|es| - 1]), es[|es| - 1])
  }

  /** The queue redelivers what it owes and nothing else, and no task before it is due; store, queue
      and command may fail and tasks be late at will. */
  predicate Queues(s: State, owed: nat, e: Event) {
    match e
    case Process(due, _, _, blank) => !blank && due <= s.now
    case Redeliver(_) => owed > 0
    case _ => true
  }

  ghost predicate RetryRun(cfg: Config, es: seq<Event>) {
    es == [] || (&& RetryRun(cfg, es[..|es| - 1])
                 && Queues(Run(cfg, START, es[..|es| - 1]), Owed(cfg, es[..|es| - 1]), es[|es| - 1]))
  }

  /** A task is queued for the last trigger or will be: in the queue, owed, or in a running command
      that may yet fail. */
  predicate HasTask(s: State, owed: nat) {
    s.store.queue != multiset{} || owed > 0 || s.running > 0
  }

  /** The last saved trigger found no task and left none. */
  function LeftAlone(cfg: Config, es: seq<Event>): bool {
    if es == [] then false
    else
      var s, e := Run(cfg, START, es[..|es| - 1]), es[|es| - 1];
      if e.TriggerSSH? && e.redis && cfg.enabled
      then Step(cfg, s, e).store.queue == multiset{} && Owed(cfg, es[..|es| - 1]) == 0
      else LeftAlone(cfg, es[..|es| - 1])
  }

  /** A trigger that found or left a task is started, or the task is still there. */
  ghost predicate Kept(s: State, owed: nat, alone: bool) {
    s.past.trigger.Some? && !alone ==> s.past.executed.Some? || s.store.queue != multiset{} || owed > 0
  }

  lemma StepKeepsTask(cfg: Config, s: State, owed: nat, alone: bool, e: Event)
    requires Kept(s, owed, alone) && Queues(s, owed, e)
    ensures var saved, s' := e.TriggerSSH? && e.redis && cfg.enabled, Step(cfg, s, e);
      Kept(s', OwedStep(cfg, s, owed, e), if saved then s'.store.queue == multiset{} && owed == 0 else alone)
  {
  }

  /** However tasks fail and however late they and their retries come: a trigger that was not left
      alone is started or has a task, in the queue or owed by it. */
  lemma {:induction false} RetriesKeepTasks(cfg: Config, es: seq<Event>)
    requires RetryRun(cfg, es)
    ensures Kept(Run(cfg, START, es), Owed(cfg, es), LeftAlone(cfg, es))
  {
    if es != [] {
      hide Step, OwedStep, Kept, Queues;
      var init := es[..|es| - 1];
      RetriesKeepTasks(cfg, init);
      StepKeepsTask(cfg, Run(cfg, START, init), Owed(cfg, init), LeftAlone(cfg, init), es[|es| - 1]);
    } else {
      hide Step;
    }
  }

  /** The record, if any, names the last saved trigger or none. */
  ghost predicate Recorded(s: State) {
    && (s.past.trigger.Some? ==> s.past.trigger.value <= s.now)
    && (s.store.record.Some? ==>
        || s.store.record.value.state.lastRequest == 0
        || (s.past.trigger.Some? && s.store.record.value.state.lastRequest == Unix(s.past.trigger.value)))
  }

  lemma StepKeepsRecorded(cfg: Config, s: State, e: Event)
    requires Recorded(s)
    ensures Recorded(Step(cfg, s, e))
  {
  }

  lemma {:induction false} RunKeepsRecorded(cfg: Config, es: seq<Event>)
    ensures Recorded(Run(cfg, START, es))
  {
    if es != [] {
      hide Step, Recorded;
      RunKeepsRecorded(cfg, es[..|es| - 1]);
      StepKeepsRecorded(cfg, Run(cfg, START, es[..|es| - 1]), es[|es| - 1]);
    } else {
      hide Step;
    }
  }

  /** From a whole window after the last trigger, the first task that can read the record starts
      the command: a retry serves it as the first delivery would have. */
  lemma RetryServes(cfg: Config, es: seq<Event>, due: nat, enqueue: bool)
    requires var s := Run(cfg, START, es);
      && s.past.trigger.Some? && due in s.store.queue
      && Unix(s.now) >= Unix(s.past.trigger.value) + cfg.WindowSeconds()
    ensures var s := Run(cfg, START, es);
      var s' := Step(cfg, s, Process(due, true, enqueue, false));
      s'.past.executed == Some(s.now) && s'.running == s.running + 1
  {
    RunKeepsRecorded(cfg, es);
    WindowPassed(cfg, Run(cfg, START, es));
    hide Run;
  }

  lemma WindowPassed(cfg: Config, s: State)
    requires Recorded(s) && s.past.trigger.Some? && Unix(s.now) >= Unix(s.past.trigger.value) + cfg.WindowSeconds()
    ensures ShouldExecute(cfg, s.store, s.now)
  {
  }

  lemma RetrySnoc(cfg: Config, es: seq<Event>, e: Event)
    requires RetryRun(cfg, es) && Queues(Run(cfg, START, es), Owed(cfg, es), e)
    ensures RetryRun(cfg, es + [e]) && Run(cfg, START, es + [e]) == Step(cfg, Run(cfg, START, es), e)
    ensures Owed(cfg, es + [e]) == OwedStep(cfg, Run(cfg, START, es), Owed(cfg, es), e)
  {
    hide Step, OwedStep, Queues;
    assert (es + [e])[..|es|] == es;
  }

  predicate NoTrigger(es: seq<Event>) {
    forall e :: e in es ==> !e.TriggerSSH?
  }

  /** A run that goes on without triggers. */
  ghost predicate Continues(cfg: Config, es: seq<Event>, es': seq<Event>) {
    es <= es' && NoTrigger(es'[|es|..]) && RetryRun(cfg, es')
  }

  lemma ContinuesSnoc(cfg: Config, es: seq<Event>, es': seq<Event>, e: Event)
    requires Continues(cfg, es, es') && !e.TriggerSSH? && Queues(Run(cfg, START, es'), Owed(cfg, es'), e)
    ensures Continues(cfg, es, es' + [e]) && Run(cfg, START, es' + [e]) == Step(cfg, Run(cfg, START, es'), e)
    ensures Owed(cfg, es' + [e]) == OwedStep(cfg, Run(cfg, START, es'), Owed(cfg, es'), e)
  {
    hide Run, Step, Queues, OwedStep;
    RetrySnoc(cfg, es', e);
    assert (es' + [e])[|es|..] == es'[|es|..] + [e];
  }

  /** A task in the queue can start the command once a window has passed. */
  lemma QueuedCanServe(cfg: Config, es: seq<Event>, es': seq<Event>, due: nat) returns (fs: seq<Event>)
    requires Continues(cfg, es, es')
    requires due in Run(cfg, START, es').store.queue && Run(cfg, START, es').past.trigger.Some?
    ensures Continues(cfg, es, fs) && Run(cfg, START, fs).past.executed.Some?
  {
    var s := Run(cfg, START, es');
    var dt := cfg.Window() + SECOND + due;
    RunKeepsRecorded(cfg, es');
    ContinuesSnoc(cfg, es, es', Tick(dt));
    var later := es' + [Tick(dt)];
    LongEnough(s.past.trigger.value, s.now, due, cfg.minutes);
    assert Unix(s.now + dt) >= Unix(s.past.trigger.value) + cfg.WindowSeconds();
    RetryServes(cfg, later, due, true);
    hide Run;
    ContinuesSnoc(cfg, es, later, Process(due, true, true, false));
    fs := later + [Process(due, true, true, false)];
  }

  lemma LongEnough(trigger: nat, now: nat, due: nat, minutes: nat)
    requires trigger <= now
    ensures Unix(now + (minutes * 60 * SECOND + SECOND + due)) >= Unix(trigger) + minutes * 60
  {
    assert (trigger + minutes * 60 * SECOND) / SECOND == trigger / SECOND + minutes * 60;
  }

  /** A task that is owed can be redelivered first, and a command can fail first. */
  lemma TaskCanServe(cfg: Config, es: seq<Event>) returns (fs: seq<Event>)
    requires RetryRun(cfg, es) && Run(cfg, START, es).past.trigger.Some? && HasTask(Run(cfg, START, es), Owed(cfg, es))
    ensures Continues(cfg, es, fs) && Run(cfg, START, fs).past.executed.Some?
  {
    assert Continues(cfg, es, es) by { assert es[|es|..] == []; }
    var s, es' := Run(cfg, START, es), es;
    if s.store.queue == multiset{} {
      if Owed(cfg, es) == 0 {
        ContinuesSnoc(cfg, es, es', Complete(true, false));
        es' := es' + [Complete(true, false)];
      }
      assert Owed(cfg, es') > 0 && Run(cfg, START, es').past == s.past;
      ContinuesSnoc(cfg, es, es', Redeliver(0));
      es' := es' + [Redeliver(0)];
      assert 0 in Run(cfg, START, es').store.queue;
    }
    hide Step, OwedStep, Continues;
    var due :| due in Run(cfg, START, es').store.queue;
    fs := QueuedCanServe(cfg, es, es', due);
  }

  lemma HopelessStep(cfg: Config, s: State, owed: nat, e: Event)
    requires s.past.executed.None? && !HasTask(s, owed) && Queues(s, owed, e) && !e.TriggerSSH?
    ensures Step(cfg, s, e).past.executed.None? && !HasTask(Step(cfg, s, e), OwedStep(cfg, s, owed, e))
  {
  }

  lemma {:induction false} HopelessStays(cfg: Config, es: seq<Event>, es': seq<Event>)
    requires Continues(cfg, es, es')
    requires Run(cfg, START, es).past.executed.None? && !HasTask(Run(cfg, START, es), Owed(cfg, es))
    ensures Run(cfg, START, es').past.executed.None? && !HasTask(Run(cfg, START, es'), Owed(cfg, es'))
    decreases |es'|
  {
    if |es'| == |es| {
      assert es' == es;
    } else {
      var init, e := es'[..|es'| - 1], es'[|es'| - 1];
      assert e == es'[|es|..][|es'| - |es| - 1] && init[|es|..] == es'[|es|..][..|es'| - |es| - 1];
      hide Step, OwedStep, HasTask, Queues;
      HopelessStays(cfg, es, init);
      HopelessStep(cfg, Run(cfg, START, init), Owed(cfg, init), e);
    }
  }

  /** Exactly when an unserved trigger can still be served without another one: a task is in the
      queue or owed, or a command is running that may yet fail and be retried. */
  lemma CanStillBeServedIff(cfg: Config, es: seq<Event>)
    requires RetryRun(cfg, es) && Run(cfg, START, es).past.trigger.Some? && Run(cfg, START, es).past.executed.None?
    ensures (exists fs :: Continues(cfg, es, fs) && Run(cfg, START, fs).past.executed.Some?) <==>
      HasTask(Run(cfg, START, es), Owed(cfg, es))
  {
    hide Run, Continues, Step;
    if HasTask(Run(cfg, START, es), Owed(cfg, es)) {
      var fs := TaskCanServe(cfg, es);
    } else {
      forall fs | Continues(cfg, es, fs) ensures Run(cfg, START, fs).past.executed.None? { HopelessStays(cfg, es, fs); }
    }
  }

  // ---- One failed enqueue --------------------------------------------------------------------

  /** The flag is set, its record alive, and nothing will clear it. */
  ghost predicate Stuck(s: State) {
    && s.running == 0 && s.store.queue == multiset{} && s.past.trigger.Some? && s.past.executed.None?
    && s.store.record.Some? && s.store.record.value.state.pending && s.now < s.store.record.value.expiry
  }

  /** Time passes only before the record's expiry, which every trigger renews. */
  ghost predicate Renewed(cfg: Config, s: State, es: seq<Event>) {
    es == [] || (&& Renewed(cfg, s, es[..|es| - 1]) && !es[|es| - 1].Redeliver?
                 && var before, e := Run(cfg, s, es[..|es| - 1]), es[|es| - 1];
                    e.Tick? && before.store.record.Some? ==> before.now + e.dt < before.store.record.value.expiry)
  }

  lemma {:induction false} StuckStaysStuck(cfg: Config, s: State, es: seq<Event>)
    requires cfg.ttl > 0 && Stuck(s) && Renewed(cfg, s, es)
    ensures Stuck(Run(cfg, s, es))
  {
    if es != [] {
      StuckStaysStuck(cfg, s, es[..|es| - 1]);
      StuckStep(cfg, Run(cfg, s, es[..|es| - 1]), es[|es| - 1]);
    }
  }

  lemma StuckStep(cfg: Config, s: State, e: Event)
    requires cfg.ttl > 0 && Stuck(s) && !e.Redeliver?
    requires e.Tick? ==> s.now + e.dt < s.store.record.value.expiry
    ensures Stuck(Step(cfg, s, e))
  {
  }

  /** The flag is saved before the task is enqueued, so one failed enqueue on a resting debouncer
      silences it: as long as triggers keep the record alive, however many come and however well
      they go, no task is queued and no command started. */
  lemma FailedEnqueueSilences(minutes: nat, s: State, later: seq<Event>)
    requires minutes > 0 && s.running == 0 && s.store.queue == multiset{} && !Load(s.store, s.now).pending
    requires Renewed(DaemonConfig(true, minutes), Step(DaemonConfig(true, minutes), s, TriggerSSH(true, false)), later)
    ensures var cfg := DaemonConfig(true, minutes); Stuck(Run(cfg, Step(cfg, s, TriggerSSH(true, false)), later))
  {
    var cfg := DaemonConfig(true, minutes);
    StuckStaysStuck(cfg, Step(cfg, s, TriggerSSH(true, false)), later);
  }

  // ---- Two windows are exactly enough ----------------------------------------------------------

  /** The record outlives every queued task. */
  ghost predicate Outlives(s: State) {
    s.store.queue != multiset{} ==> Load(s.store, s.now).pending
  }

  lemma Snoc(cfg: Config, es: seq<Event>, e: Event)
    requires OrderlyRun(cfg, START, es) && Orderly(cfg, Run(cfg, START, es), e)
    ensures OrderlyRun(cfg, START, es + [e]) && Run(cfg, START, es + [e]) == Step(cfg, Run(cfg, START, es), e)
  {
    assert (es + [e])[..|es|] == es;
  }

  lemma SavedFirst(cfg: Config, s: State)
    requires cfg.enabled && s == START.(now := SECOND - 1)
    ensures Step(cfg, s, TriggerSSH(true, true)) == State(SECOND - 1,
      Store(Some(Stored(DebounceState(0, true), SECOND - 1 + cfg.ttl)), multiset{SECOND - 1 + cfg.Window()}), 0,
      History(Some(SECOND - 1), None, 0))
  {
    assert multiset{} + multiset{SECOND - 1 + cfg.Window()} == multiset{SECOND - 1 + cfg.Window()};
  }

  lemma FirstTrigger(cfg: Config) returns (es: seq<Event>)
    requires cfg.enabled && cfg.minutes > 0
    ensures OrderlyRun(cfg, START, es)
    ensures Run(cfg, START, es) == State(SECOND, Store(Some(Stored(DebounceState(0, true), SECOND - 1 + cfg.ttl)),
      multiset{SECOND - 1 + cfg.Window()}), 0, History(Some(SECOND - 1), None, 0))
  {
    es := [];
    assert OrderlyRun(cfg, START, es) && Run(cfg, START, es) == START;
    hide Run, OrderlyRun, Step;
    Snoc(cfg, es, Tick(SECOND - 1));
    TickOnly(cfg, START, SECOND - 1);
    es := es + [Tick(SECOND - 1)];
    SavedFirst(cfg, Run(cfg, START, es));
    Snoc(cfg, es, TriggerSSH(true, true));
    es := es + [TriggerSSH(true, true)];
    TickOnly(cfg, Run(cfg, START, es), 1);
    Snoc(cfg, es, Tick(1));
    es := es + [Tick(1)];
  }

  lemma SecondTrigger(cfg: Config) returns (es: seq<Event>)
    requires cfg.enabled && cfg.minutes > 0 && cfg.ttl > 1
    ensures OrderlyRun(cfg, START, es)
    ensures var s := Run(cfg, START, es);
      && s.running == 0 && s.now == SECOND - 1 + cfg.Window()
      && s.store == Store(Some(Stored(DebounceState(1, true), SECOND + cfg.ttl)), multiset{SECOND - 1 + cfg.Window()})
  {
    es := FirstTrigger(cfg);
    Snoc(cfg, es, TriggerSSH(true, true));
    es := es + [TriggerSSH(true, true)];
    Snoc(cfg, es, Tick(cfg.Window() - 1));
    es := es + [Tick(cfg.Window() - 1)];
  }

  /** A second's last nanosecond: still one whole second short of the second trigger's window. */
  lemma TooRecent(cfg: Config, s: State) returns (s': State)
    requires cfg.minutes > 0 && cfg.ttl >= cfg.Window() && s.running == 0 && s.now == SECOND - 1 + cfg.Window()
    requires s.store == Store(Some(Stored(DebounceState(1, true), SECOND + cfg.ttl)), multiset{s.now})
    ensures s' == Step(cfg, s, Process(s.now, true, true, false))
    ensures s'.now == s.now && s'.running == 0 && s'.store == s.store.(queue := multiset{s.now + cfg.Window()})
  {
    assert Unix(s.now) == cfg.WindowSeconds();
    s' := Step(cfg, s, Process(s.now, true, true, false));
    assert multiset{s.now} - multiset{s.now} == multiset{};
    assert s'.store.queue == multiset{s.now + cfg.Window()};
  }

  /** Two triggers on either side of a second's boundary, and the first task just in time to see
      the second one as too recent. */
  lemma ShortTtlFails(cfg: Config) returns (es: seq<Event>)
    requires cfg.enabled && cfg.minutes > 0 && cfg.ttl < 2 * cfg.Window()
    ensures OrderlyRun(cfg, START, es) && !Outlives(Run(cfg, START, es))
  {
    hide Run, OrderlyRun;
    if cfg.ttl <= 1 {
      es := FirstTrigger(cfg);
    } else {
      es := SecondTrigger(cfg);
      if cfg.ttl >= cfg.Window() {
        var s := Run(cfg, START, es);
        var s' := TooRecent(cfg, s);
        hide Step;
        Snoc(cfg, es, Process(s.now, true, true, false));
        es := es + [Process(s.now, true, true, false)];
        Snoc(cfg, es, Tick(cfg.Window()));
        es := es + [Tick(cfg.Window())];
        TickOnly(cfg, s', cfg.Window());
      }
    }
  }

  lemma TickOnly(cfg: Config, s: State, dt: nat)
    ensures Step(cfg, s, Tick(dt)) == s.(now := s.now + dt)
  {
  }

  /** The record outlives every queued task in every orderly run if and only if its time to live
      is at least two windows, the value the code uses: one nanosecond less is too short. */
  lemma TwoWindowsAreExactlyEnough(cfg: Config)
    requires cfg.enabled && cfg.minutes > 0
    ensures (forall es :: OrderlyRun(cfg, START, es) ==> Outlives(Run(cfg, START, es))) <==> cfg.ttl >= 2 * cfg.Window()
    ensures DaemonConfig(true, cfg.minutes).ttl == 2 * DaemonConfig(true, cfg.minutes).Window()
    ensures DaemonConfig(true, cfg.minutes).ttl == cfg.minutes * 120_000_000_000
  {
    if cfg.ttl >= 2 * cfg.Window() {
      forall es | OrderlyRun(cfg, START, es) ensures Outlives(Run(cfg, START, es)) {
        RunKeepsInv(cfg, es);
      }
    } else {
      var es := ShortTtlFails(cfg);
    }
  }
}
