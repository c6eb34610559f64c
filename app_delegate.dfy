/**
 The application delegate and its method-call handler, on the heap: the
 delegate holds at most one status-bar manager, and each command, each block
 the main run loop executes and the termination hook are proved to move the
 heap exactly as the matching transition of the pure specification moves
 its World.
 */
module App {
  import opened Wrappers
  import opened StatusBar
  import opened AppSpec

  class AppDelegate {
    const thread: MainThread
    /** The delegate's one strong reference to a manager. */
    var statusBarManager: StatusBarManager?

    /** What the runtime knows of each manager: its strong references and its item. */
    ghost function States(): map<StatusBarManager, ManagerState>
      reads thread`managers, thread.managers
    {
      map m | m in thread.managers :: ManagerState(m.retainCount, m.statusBarItem)
    }

    /** The heap, read as a World of the specification. */
    ghost function WorldOf(): World
      reads this, thread, thread.managers
    {
      World(statusBarManager, States(), thread.items, thread.queue, thread.nextId)
    }

    /** Every manager works on this delegate's main thread. */
    ghost predicate Framed()
      reads thread
    {
      forall m | m in thread.managers :: m.thread == thread
    }

    ghost predicate Valid()
      reads this, thread, thread.managers
    {
      Framed() && Inv(WorldOf())
    }

    /** The delegate at launch: no manager, an empty status bar and an empty main queue. */
    constructor ()
      ensures Valid() && fresh(thread) && WorldOf() == Start()
    {
      thread := new MainThread();
      statusBarManager := null;
      new;
      assert WorldOf().managers == map[];
      StartInv();
    }

    /** The fresh-id bookkeeping of the status bar follows from the invariant. */
    lemma ThreadValid()
      requires Valid()
      ensures thread.Valid()
    {
      forall id | id in thread.items ensures id < thread.nextId {
        assert ItemOk(WorldOf(), id);
      }
    }

    /** "initialize": a new manager is built and assigned, which releases the previous one. */
    method InitializeManager()
      requires Valid()
      modifies this, thread, thread.managers
      ensures Valid() && statusBarManager != null && fresh(statusBarManager)
      ensures thread.managers == old(thread.managers) + {statusBarManager}
      ensures statusBarManager !in old(WorldOf()).managers
      ensures WorldOf() == Initialize(old(WorldOf()), statusBarManager)
    {
      ghost var w := WorldOf();
      var previous := statusBarManager;
      ThreadValid();
      StoreNewManager();
      if previous != null {
        assert ManagerOk(w, previous);
        DropReference(previous);
      }
      assert Inv(WorldOf()) by {
        InitializeKeepsInv(w, statusBarManager);
      }
    }

    /**
     The construction of a manager and its assignment to the delegate, before
     the previous manager is released.
     */
    method StoreNewManager()
      requires Framed() && thread.Valid()
      modifies this, thread
      ensures Framed() && statusBarManager != null && fresh(statusBarManager)
      ensures thread.managers == old(thread.managers) + {statusBarManager}
      ensures statusBarManager !in old(WorldOf()).managers
      ensures WorldOf() == Created(old(WorldOf()), statusBarManager)
    {
      ghost var w := WorldOf();
      var nm := new StatusBarManager(thread);
      statusBarManager := nm;
      assert WorldOf() == Created(w, nm);
    }

    /**
     The delegate (or a finished block) lets go of one strong reference to m;
     letting go of the last one runs m's deinitializer.
     */
    method DropReference(m: StatusBarManager)
      requires Framed() && m in thread.managers && m.retainCount > 0
      modifies m, thread
      ensures Framed() && thread.managers == old(thread.managers)
      ensures m in old(WorldOf()).managers && old(WorldOf()).managers[m].retainCount > 0
      ensures WorldOf() == Release(old(WorldOf()), m)
    {
      ghost var w := WorldOf();
      ReleaseShape(w, m);
      m.Release();
      assert WorldOf().managers == Release(w, m).managers;
    }

    /** updateIcon on the delegate's manager, if it has one. */
    method UpdateIconCommand(iconName: string, tooltip: string)
      requires Valid()
      modifies if statusBarManager != null then {statusBarManager, thread} else {}
      ensures Valid() && thread.managers == old(thread.managers)
      ensures WorldOf() ==
        if old(statusBarManager) == null then old(WorldOf())
        else UpdateIcon(old(WorldOf()), old(statusBarManager), iconName, tooltip)
    {
      ghost var w := WorldOf();
      if statusBarManager != null {
        var m := statusBarManager;
        m.UpdateIcon(iconName, tooltip);
        assert WorldOf() == UpdateIcon(w, m, iconName, tooltip);
        UpdateIconKeepsInv(w, m, iconName, tooltip);
      }
    }

    /** "clear": the manager clears its status, then the delegate drops its reference. */
    method ClearCommand()
      requires Valid()
      modifies this, thread, thread.managers
      ensures Valid() && thread.managers == old(thread.managers)
      ensures WorldOf() == Clear(old(WorldOf()))
    {
      ghost var w := WorldOf();
      if statusBarManager != null {
        var m := statusBarManager;
        assert ManagerOk(w, m);
        m.ClearStatus();
        statusBarManager := null;
        assert WorldOf() == ClearStatus(w, m).(current := null);
        DropReference(m);
      }
      assert Inv(WorldOf()) by {
        ClearKeepsInv(w);
      }
    }

    /** applicationWillTerminate: the manager clears its status; the delegate keeps it. */
    method ApplicationWillTerminate()
      requires Valid()
      modifies thread, thread.managers
      ensures Valid() && thread.managers == old(thread.managers)
      ensures WorldOf() == Terminate(old(WorldOf()))
    {
      ghost var w := WorldOf();
      if statusBarManager != null {
        statusBarManager.ClearStatus();
        assert WorldOf() == ClearStatus(w, w.current);
      }
      TerminateKeepsInv(w);
    }

    /**
     The main run loop executes the oldest queued block: a removal block
     removes its item, an update block draws and is then released, which
     drops its reference to its manager. That the invariant survives is
     StepKeepsInv, a property of Step; a block can run whenever the
     invariant holds (InvRunnable).
     */
    method RunMainTask()
      requires Framed() && Runnable(WorldOf())
      modifies thread, thread.managers
      ensures Framed() && thread.managers == old(thread.managers)
      ensures WorldOf() == Step(old(WorldOf()))
    {
      ghost var w := WorldOf();
      var t := thread.TakeNext();
      match t
      case RemoveTask(item) =>
        if item.Some? {
          thread.RemoveStatusItem(item.value);
        }
        assert WorldOf() == Step(w);
      case UpdateTask(m, iconName, tooltip) =>
        RunUpdateBlock(m, iconName, tooltip);
    }

    /** An update block of m runs: it draws, and once it is done its reference to m is dropped. */
    method RunUpdateBlock(m: StatusBarManager, iconName: string, tooltip: string)
      requires Framed() && m in thread.managers && m.retainCount > 0
      modifies m, thread
      ensures Framed() && thread.managers == old(thread.managers)
      ensures m in old(WorldOf()).managers && old(WorldOf()).managers[m].retainCount > 0
      ensures WorldOf() == Release(old(WorldOf()).(items := Repainted(old(thread.items), old(m.statusBarItem), iconName, tooltip)), m)
    {
      m.DrawStatus(iconName, tooltip);
      DropReference(m);
    }

    /** The main run loop executes blocks until the queue is empty. */
    method DrainMainQueue()
      requires Valid()
      modifies thread, thread.managers
      ensures Valid() && thread.queue == [] && thread.managers == old(thread.managers)
      ensures WorldOf() == Drain(old(WorldOf()))
    {
      while thread.queue != []
        invariant Valid() && thread.managers == old(thread.managers)
        invariant Drain(WorldOf()) == Drain(old(WorldOf()))
        decreases |Owners(thread.queue)|, |thread.queue|
      {
        ghost var w := WorldOf();
        InvRunnable(w);
        StepKeepsInv(w);
        RunMainTask();
        StepInv(w, WorldOf());
      }
    }
  }

  /**
   The channel's handler. It captures the delegate weakly, so it may find
   the delegate gone: then it answers UNAVAILABLE and changes nothing.
   Otherwise it moves the heap as the specification's Handle moves the
   World, and answers as Handle answers.
   */
  method MethodCallHandler(delegate: AppDelegate?, call: MethodCall) returns (reply: Reply)
    requires delegate != null ==> delegate.Valid()
    modifies if delegate != null then {delegate, delegate.thread} + delegate.thread.managers else {}
    ensures delegate == null ==> reply == Failure("UNAVAILABLE", "AppDelegate not available")
    ensures delegate != null ==>
      && delegate.Valid()
      && (call.name == "initialize" ==>
            delegate.statusBarManager != null && fresh(delegate.statusBarManager)
            && delegate.statusBarManager !in old(delegate.WorldOf()).managers)
      && (delegate.WorldOf(), reply) == Handle(old(delegate.WorldOf()), call, delegate.statusBarManager)
  {
    if delegate == null {
      return Failure("UNAVAILABLE", "AppDelegate not available");
    }
    ghost var w := delegate.WorldOf();
    if call.name == "initialize" {
      delegate.InitializeManager();
      reply := Success;
    } else if call.name == "updateIcon" {
      reply := Success;
      match UpdateArgs(call.arguments)
      case Some((iconName, tooltip)) =>
        delegate.UpdateIconCommand(iconName, tooltip);
      case None =>
    } else if call.name == "clear" {
      delegate.ClearCommand();
      reply := Success;
    } else {
      reply := NotImplemented;
    }
  }
}
