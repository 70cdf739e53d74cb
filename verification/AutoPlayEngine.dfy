/** The engine manager as the closure it is: variables and a pending record updated in place. */
module AutoPlayEngine {
  import opened Wrappers
  import opened AutoPlay
  import opened AutoPlayFacts

  /** The pending record. Ids are never reused, so an id stands for the record's identity. */
  class PendingRequest {
    const id: nat
    var worker: Option<nat>
    var fallbackTimer: Option<nat>
    var watchdog: Option<nat>

    constructor (id: nat)
      ensures View() == Pending(id, None, None, None)
    {
      this.id := id;
      worker, fallbackTimer, watchdog := None, None, None;
    }

    function View(): Pending
      reads this
    {
      Pending(id, worker, fallbackTimer, watchdog)
    }
  }

  class Engine {
    var worker: Option<nat>
    var pending: PendingRequest?
    var nextId: nat
    var disposed: bool

    // The surroundings: workers, timers, unanswered requests, calls of settle.
    var created: nat
    var terminated: set<nat>
    var timers: map<nat, Timer>
    var nextTimer: nat
    var posted: map<nat, set<int>>
    var settled: map<nat, seq<EngineResult>>

    constructor ()
      ensures Valid() && View() == Init()
    {
      worker, pending, nextId, disposed := None, null, 1, false;
      created, terminated, timers, nextTimer, posted, settled := 0, {}, map[], 0, map[], map[];
      new;
      InitInv();
    }

    function View(): State
      reads this, pending
    {
      State(worker, if pending == null then None else Some(pending.View()), nextId, disposed,
            created, terminated, timers, nextTimer, posted, settled)
    }

    ghost predicate Valid()
      reads this, pending
    {
      Inv(View())
    }

    method ClearTimers(active: PendingRequest)
      modifies this`timers, active
      ensures timers == old(timers) - Opt(old(active.fallbackTimer)) - Opt(old(active.watchdog))
      ensures active.View() == Pending(active.id, old(active.worker), None, None)
    {
      if active.fallbackTimer.Some? {
        timers := timers - {active.fallbackTimer.value};
        active.fallbackTimer := None;
      }
      if active.watchdog.Some? {
        timers := timers - {active.watchdog.value};
        active.watchdog := None;
      }
    }

    method SettleRequest(active: PendingRequest, result: EngineResult)
      modifies this`settled
      ensures View() == Settle(old(View()), active.id, result)
    {
      settled := settled[active.id := (if active.id in settled then settled[active.id] else []) + [result]];
    }

    method CompleteRequest(active: PendingRequest, result: EngineResult)
      requires pending == null || pending == active || pending.id != active.id
      modifies this, active
      ensures View() == Complete(old(View()), active.id, result)
      ensures old(pending) == active ==> pending == null
      ensures old(pending) != active ==> pending == old(pending)
    {
      if pending != active {
        return;
      }
      pending := null;
      ClearTimers(active);
      SettleRequest(active, result);
    }

    method SupersedePending()
      modifies this, pending
      ensures View() == Supersede(old(View())) && pending == null
    {
      var active := pending;
      if active == null {
        return;
      }
      pending := null;
      ClearTimers(active);
      if active.worker.Some? {
        if worker == active.worker {
          worker := None;
        }
        terminated := terminated + {active.worker.value};
      }
      SettleRequest(active, Superseded);
    }

    method FailCurrentWorker(target: nat, message: string)
      modifies this, pending
      ensures View() == FailWorker(old(View()), target, message)
      ensures pending == null || pending == old(pending)
    {
      if worker != Some(target) {
        return;
      }
      worker := None;
      terminated := terminated + {target};
      var active := pending;
      if active != null && active.worker == Some(target) {
        CompleteRequest(active, Failed(message));
      }
    }

    method HandleMessage(target: nat, data: Data)
      requires Valid()
      modifies this, pending
      ensures Valid() && View() == OnMessage(old(View()), target, data)
      ensures pending == null || pending == old(pending)
    {
      MessageOk(View(), target, data);
      if data.Response? && target in posted {
        posted := posted[target := posted[target] - {data.id}];
      }
      if worker != Some(target) {
        return;
      }
      var active := pending;
      if active == null || active.worker != Some(target) {
        return;
      }
      if data.Invalid? || data.id != active.id {
        FailCurrentWorker(target, INVALID_RESPONSE);
        return;
      }
      CompleteRequest(active, ResultOf(data));
    }

    method HandleError(target: nat)
      requires Valid()
      modifies this, pending
      ensures Valid() && View() == FailWorker(old(View()), target, WORKER_FAILURE_MESSAGE)
      ensures pending == null || pending == old(pending)
    {
      FailWorkerOk(View(), target, WORKER_FAILURE_MESSAGE);
      FailCurrentWorker(target, WORKER_FAILURE_MESSAGE);
    }

    method HandleMessageError(target: nat)
      requires Valid()
      modifies this, pending
      ensures Valid() && View() == FailWorker(old(View()), target, UNREADABLE_RESULT)
      ensures pending == null || pending == old(pending)
    {
      FailWorkerOk(View(), target, UNREADABLE_RESULT);
      FailCurrentWorker(target, UNREADABLE_RESULT);
    }

    /** The callback of a timer that fires. */
    method HandleTimer(timer: nat, search: Search)
      requires Valid() && timer in timers
      modifies this, pending
      ensures Valid() && View() == OnTimer(old(View()), timer, search)
      ensures pending == null || pending == old(pending)
    {
      TimerOk(View(), timer, search);
      var task := timers[timer];
      timers := timers - {timer};
      match task
      case Watchdog(target) =>
        FailCurrentWorker(target, TOO_LONG);
      case Fallback(id) =>
        var active := pending;
        if active == null || active.id != id {
          return;
        }
        active.fallbackTimer := None;
        CompleteRequest(active, SearchResult(search));
    }

    method ArmTimer(task: Timer) returns (timer: nat)
      modifies this`timers, this`nextTimer
      ensures timer == old(nextTimer) && View() == Arm(old(View()), task)
    {
      timer := nextTimer;
      timers := timers[timer := task];
      nextTimer := nextTimer + 1;
    }

    method ScheduleFallback(active: PendingRequest)
      requires pending == active
      modifies this`timers, this`nextTimer, active
      ensures View() == ScheduleOnMainThread(old(View()), old(active.View()))
    {
      var timer := ArmTimer(Fallback(active.id));
      active.fallbackTimer := Some(timer);
    }

    method StartNewWorker(spawn: Spawn)
      requires worker.None?
      modifies this`worker, this`created, this`posted, this`terminated
      ensures View() == StartWorker(old(View()), spawn)
    {
      if spawn == Unavailable {
        return;
      }
      var target := created;
      created := created + 1;
      posted := posted[target := {}];
      if spawn == Broken {
        terminated := terminated + {target};
      } else {
        worker := Some(target);
      }
    }

    /** What the catch block around postMessage does. */
    method RecoverFromPost(active: PendingRequest, target: nat)
      requires pending == active
      modifies this, active
      ensures pending == active
      ensures View() == ScheduleOnMainThread(
                          Terminate(AutoPlay.ClearTimers(old(View()), old(active.View())).(worker := None), target),
                          Pending(active.id, None, None, None))
    {
      ClearTimers(active);
      worker := None;
      terminated := terminated + {target};
      active.worker := None;
      ScheduleFallback(active);
    }

    method Post(active: PendingRequest, target: nat, posts: bool)
      requires pending == active && active.View() == Pending(active.id, None, None, None) && worker == Some(target)
      modifies this, active
      ensures View() == PostRequest(old(View()), old(active.View()), target, posts) && pending == active
    {
      active.worker := Some(target);
      var timer := ArmTimer(Watchdog(target));
      active.watchdog := Some(timer);
      if posts {
        posted := posted[target := (if target in posted then posted[target] else {}) + {active.id}];
      } else {
        hide AutoPlay.ClearTimers, ScheduleOnMainThread;
        RecoverFromPost(active, target);
      }
    }

    method ChooseNextMove(spawn: Spawn, posts: bool)
      requires Valid()
      modifies this, pending
      ensures Valid() && View() == ChooseMove(old(View()), spawn, posts)
      ensures pending == old(pending) || fresh(pending)
    {
      hide Inv, Supersede, StartWorker, ScheduleOnMainThread, PostRequest;
      ChooseOk(View(), spawn, posts);
      if disposed {
        return;
      }
      SupersedePending();
      ghost var idle := View();
      var id := nextId;
      nextId := nextId + 1;
      var active := new PendingRequest(id);
      settled := settled[id := []];
      pending := active;
      assert View() == Issue(idle);
      if worker.None? {
        StartNewWorker(spawn);
      }
      assert View() == Ready(Issue(idle), spawn);
      match worker
      case None => ScheduleFallback(active);
      case Some(target) => Post(active, target, posts);
    }

    method ResetEngine()
      requires Valid()
      modifies this, pending
      ensures Valid() && View() == Reset(old(View())) && pending == null
    {
      ResetOk(View());
      SupersedePending();
      if worker.Some? {
        terminated := terminated + {worker.value};
        worker := None;
      }
    }

    method DisposeEngine()
      requires Valid()
      modifies this, pending
      ensures Valid() && View() == Dispose(old(View())) && pending == null
    {
      ResetOk(View());
      disposed := true;
      SupersedePending();
      if worker.Some? {
        terminated := terminated + {worker.value};
      }
      worker := None;
    }
  }
}
