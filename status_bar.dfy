/**
 The status-bar manager and the main-thread state it works on: the system
 status bar, whose items are identified by fresh ids, and the main dispatch
 queue, a FIFO of blocks that the main run loop takes off and runs one at a
 time. Automatic reference counting is explicit: a manager counts its strong
 references, and dropping the last one runs its deinitializer.
 */
module StatusBar {
  import opened Wrappers
  import opened StatusColor

  /** The image of an item's button. */
  datatype Image =
    | NoImage           // a new item's button, before setup
    | DefaultTemplate   // the image set at setup (the system "available" image, or its fallback)
    | Dot(color: Color) // a filled circle of one colour, drawn by updateIcon

  /** Identity of one status item. */
  type ItemId = nat

  /** What a status item shows: its button's image and template flag, its tooltip, and its click target. */
  datatype Entry = Entry(image: Image, isTemplate: bool, toolTip: string, target: StatusBarManager?)

  /**
   A block on the main queue: the block of updateIcon, which holds a strong
   reference to its manager, or the block of clearStatus, which holds only
   the item it was given.
   */
  datatype Task =
    | UpdateTask(owner: StatusBarManager, iconName: string, tooltip: string)
    | RemoveTask(item: Option<ItemId>)

  /** The managers that queued update blocks keep alive, one reference per block. */
  function Owners(tasks: seq<Task>): (r: multiset<StatusBarManager>)
    ensures |r| <= |tasks|
  {
    if tasks == [] then multiset{}
    else (if tasks[0].UpdateTask? then multiset{tasks[0].owner} else multiset{}) + Owners(tasks[1..])
  }

  /** The items that queued removal blocks will remove, once per block. */
  function Removals(tasks: seq<Task>): (r: multiset<ItemId>)
    ensures |r| <= |tasks|
  {
    if tasks == [] then multiset{}
    else (if tasks[0].RemoveTask? && tasks[0].item.Some? then multiset{tasks[0].item.value} else multiset{})
         + Removals(tasks[1..])
  }

  lemma {:induction false} OwnersAppend(a: seq<Task>, b: seq<Task>)
    ensures Owners(a + b) == Owners(a) + Owners(b)
  {
    if a == [] {
      assert a + b == b;
    } else {
      assert (a + b)[1..] == a[1..] + b;
      OwnersAppend(a[1..], b);
    }
  }

  lemma {:induction false} RemovalsAppend(a: seq<Task>, b: seq<Task>)
    ensures Removals(a + b) == Removals(a) + Removals(b)
  {
    if a == [] {
      assert a + b == b;
    } else {
      assert (a + b)[1..] == a[1..] + b;
      RemovalsAppend(a[1..], b);
    }
  }

  /** The entry after the update block has drawn a dot for `iconName` and set the tooltip. */
  function Painted(e: Entry, iconName: string, tooltip: string): (r: Entry)
    ensures r.image == Dot(DotColor(iconName)) && !r.isTemplate
    ensures r.toolTip == tooltip && r.target == e.target
  {
    e.(image := Dot(DotColor(iconName)), isTemplate := false, toolTip := tooltip)
  }

  /** The status bar after an update block ran for a manager holding `item`. */
  function Repainted(items: map<ItemId, Entry>, item: Option<ItemId>, iconName: string, tooltip: string)
    : (r: map<ItemId, Entry>)
    ensures r.Keys == items.Keys
    ensures forall id | id in items ::
      r[id] == if item == Some(id) then Painted(items[id], iconName, tooltip) else items[id]
  {
    if item.Some? && item.value in items then items[item.value := Painted(items[item.value], iconName, tooltip)]
    else items
  }

  /** Of two updates of the same item, the later one decides everything the item shows. */
  lemma RepaintedLastWins(items: map<ItemId, Entry>, item: Option<ItemId>, i1: string, t1: string, i2: string, t2: string)
    ensures Repainted(Repainted(items, item, i1, t1), item, i2, t2) == Repainted(items, item, i2, t2)
  {
  }

  /** The system status bar and the main dispatch queue. */
  class MainThread {
    /** The live status items (NSStatusBar.system). */
    var items: map<ItemId, Entry>
    var nextId: ItemId
    /** The blocks submitted to the main queue and not yet run. */
    var queue: seq<Task>
    /** Every manager ever constructed on this thread. */
    ghost var managers: set<StatusBarManager>

    ghost predicate Valid()
      reads this
    {
      forall id | id in items :: id < nextId
    }

    constructor ()
      ensures Valid() && items == map[] && nextId == 0 && queue == [] && managers == {}
    {
      items, nextId, queue, managers := map[], 0, [], {};
    }

    /** A new item, with an empty button, added to the status bar. */
    method NewStatusItem() returns (id: ItemId)
      requires Valid()
      modifies this`items, this`nextId
      ensures Valid()
      ensures id == old(nextId) && nextId == old(nextId) + 1
      ensures id !in old(items) && items == old(items)[id := Entry(NoImage, false, "", null)]
    {
      id := nextId;
      items := items[id := Entry(NoImage, false, "", null)];
      nextId := nextId + 1;
    }

    /** Removes an item from the status bar. */
    method RemoveStatusItem(id: ItemId)
      modifies this`items
      ensures items == old(items) - {id}
    {
      items := items - {id};
    }

    /** Submits a block to the main queue without waiting for it. */
    method Async(t: Task)
      modifies this`queue
      ensures queue == old(queue) + [t]
    {
      queue := queue + [t];
    }

    /** The run loop takes the oldest block off the queue, to run it. */
    method TakeNext() returns (t: Task)
      requires queue != []
      modifies this`queue
      ensures t == old(queue[0]) && queue == old(queue[1..])
    {
      t := queue[0];
      queue := queue[1..];
    }
  }

  class StatusBarManager {
    const thread: MainThread
    /** The item this manager shows, or None once cleared. */
    var statusBarItem: Option<ItemId>
    /** The number of strong references to this manager. */
    var retainCount: nat

    /** Creates the manager and its item: the default template image, tooltip "Labby", this manager as click target. */
    constructor (thread: MainThread)
      requires thread.Valid()
      modifies thread
      ensures this.thread == thread && thread.Valid()
      ensures retainCount == 1
      ensures statusBarItem == Some(old(thread.nextId)) && thread.nextId == old(thread.nextId) + 1
      ensures statusBarItem.value !in old(thread.items)
      ensures thread.items == old(thread.items)[statusBarItem.value := Entry(DefaultTemplate, true, "Labby", this)]
      ensures thread.queue == old(thread.queue)
      ensures thread.managers == old(thread.managers) + {this}
    {
      this.thread := thread;
      statusBarItem := None;
      retainCount := 1;
      new;
      SetupStatusBar();
      thread.managers := thread.managers + {this};
    }

    method SetupStatusBar()
      requires thread.Valid()
      modifies this`statusBarItem, thread`items, thread`nextId
      ensures thread.Valid()
      ensures statusBarItem == Some(old(thread.nextId)) && thread.nextId == old(thread.nextId) + 1
      ensures statusBarItem.value !in old(thread.items)
      ensures thread.items == old(thread.items)[statusBarItem.value := Entry(DefaultTemplate, true, "Labby", this)]
    {
      var id := thread.NewStatusItem();
      statusBarItem := Some(id);
      var button := thread.items[id];
      thread.items := thread.items[id := button.(image := DefaultTemplate, isTemplate := true, toolTip := "Labby", target := this)];
    }

    /** Queues the drawing of a status dot; the block keeps this manager alive until it has run. */
    method UpdateIcon(iconName: string, tooltip: string)
      modifies this`retainCount, thread`queue
      ensures retainCount == old(retainCount) + 1
      ensures thread.queue == old(thread.queue) + [UpdateTask(this, iconName, tooltip)]
    {
      retainCount := retainCount + 1;
      thread.Async(UpdateTask(this, iconName, tooltip));
    }

    /**
     The update block, as it runs on the main thread: it looks at
     statusBarItem only now, and does nothing when the manager holds no item.
     */
    method DrawStatus(iconName: string, tooltip: string)
      modifies thread`items
      ensures thread.items == Repainted(old(thread.items), statusBarItem, iconName, tooltip)
    {
      if statusBarItem.Some? && statusBarItem.value in thread.items {
        var id := statusBarItem.value;
        thread.items := thread.items[id := Painted(thread.items[id], iconName, tooltip)];
      }
    }

    /** Forgets the item at once and queues its removal from the status bar. */
    method ClearStatus()
      modifies this`statusBarItem, thread`queue
      ensures statusBarItem == None
      ensures thread.queue == old(thread.queue) + [RemoveTask(old(statusBarItem))]
    {
      var itemToRemove := statusBarItem;
      statusBarItem := None;
      thread.Async(RemoveTask(itemToRemove));
    }

    /** Drops one strong reference; dropping the last one runs the deinitializer, which calls clearStatus. */
    method Release()
      requires retainCount > 0
      modifies this`retainCount, this`statusBarItem, thread`queue
      ensures retainCount == old(retainCount) - 1
      ensures retainCount == 0 ==>
        statusBarItem == None && thread.queue == old(thread.queue) + [RemoveTask(old(statusBarItem))]
      ensures retainCount > 0 ==>
        statusBarItem == old(statusBarItem) && thread.queue == old(thread.queue)
    {
      retainCount := retainCount - 1;
      if retainCount == 0 {
        ClearStatus();
      }
    }
  }

}
