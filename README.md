# Labby status-bar shim, modelled in Dafny

Labby is a desktop monitor for GitLab pipelines. Its macOS runner has a small
native shim: a method channel over which the Flutter side sends `initialize`,
`updateIcon(icon, tooltip)` and `clear`, an `AppDelegate` that handles those
calls, and a `StatusBarManager` that owns one item in the system status bar.
`updateIcon` draws a coloured dot. The colour comes from an ordered list of
substring tests on the icon name: "checkmark" gives green, "xmark" red,
"arrow.clockwise" blue, "exclamationmark" orange, and anything else gray.

The model has five modules:

- `StatusColor` (`status_color.dfy`): the colour choice. It is pure. The
  if/else chain is proved equal to an ordered rule table read first-match-wins.
- `StatusBar` (`status_bar.dfy`): the heap objects.
  - `MainThread` holds the live status items (`NSStatusBar.system`) and the
    main dispatch queue, a FIFO of blocks.
  - `StatusBarManager` has `retainCount` and `statusBarItem` fields, updated
    in place.
  - Automatic reference counting is written out. The block queued by
    `updateIcon` holds a strong reference to its manager. Dropping the last
    reference runs `deinit`, which calls `clearStatus`.
- `AppSpec` (`app_spec.dfy`): the same system as a state machine over values.
  - A `World` holds the delegate's manager, every manager's count and item,
    the live items and the queue.
  - Every command and every block the run loop executes is a function on it.
  - A global invariant `Inv` is proved to hold at the start and to be kept by
    every command and every block. Its parts:
    - a manager's count is the delegate's reference plus one per queued
      update block;
    - a manager with no reference left holds no item;
    - every live item is either held by the manager it was made for, or
      queued for removal exactly once.
- `Wrappers` (`wrappers.dfy`): the `Option` type.
- `App` (`app_delegate.dfy`): the `AppDelegate` class and the channel's
  handler.
  - Each method is proved to move the heap exactly as the matching `AppSpec`
    transition moves the `World` (`WorldOf() == Clear(old(WorldOf()))`, …),
    so the invariant and the lemmas of `AppSpec` carry over to the heap.

Three behaviours of the code are easy to misread:

- Re-initializing does not leave exactly one item straight away. The previous
  manager's item is removed by a block on the main queue. A pending update
  block also keeps the previous manager alive until that block runs. So two
  items can be live until the queue drains. `ReinitializeLeavesOneItem` proves
  that exactly one is left once it has drained.
- `applicationWillTerminate` only queues the removal of the icon. The model
  proves that the removal is queued exactly once and that the item is still
  live at that point (`TerminateThenClear`). It does not prove that the
  removal runs before the process exits.
- `clear` drops the delegate's reference to the manager rather than entering
  a terminal state. A later `updateIcon` then finds no manager and does
  nothing, and a later `initialize` builds a fresh manager.

## Model

| member | source | states |
|---|---|---|
| StatusColor.ContainsIff | macos/Runner/StatusBarManager.swift:60-66 | the front-to-back substring scan succeeds exactly when the keyword occurs at some position of the icon name (both directions) |
| StatusColor.FirstMatchWins | macos/Runner/StatusBarManager.swift:59-70 | in an ordered keyword table, a rule that matches decides the colour when no earlier rule matches |
| StatusColor.FirstMatchFallback | macos/Runner/StatusBarManager.swift:68-69 | when no rule matches, the fallback colour is used |
| StatusColor.DotColorFollowsRules | macos/Runner/StatusBarManager.swift:59-70 | the colour chain equals the table checkmark/green, xmark/red, arrow.clockwise/blue, exclamationmark/orange read first-match-wins, with gray as the fallback |
| StatusColor.DotColorPriority | macos/Runner/StatusBarManager.swift:59-70 | each colour is produced if and only if its keyword occurs and no keyword tried before it occurs |
| StatusColor.KeywordLacksEarlierKeywords | macos/Runner/StatusBarManager.swift:59-70 | no keyword of the table contains a keyword tried before it, so no rule is shadowed |
| StatusColor.EveryColorReachable | macos/Runner/StatusBarManager.swift:59-70 | each keyword on its own yields its own colour, and the empty name yields gray |
| StatusBar.Painted | macos/Runner/StatusBarManager.swift:59-81 | a drawn entry shows a dot of the keyword's colour, is not a template, shows the tooltip verbatim and keeps its click target |
| StatusBar.Repainted | macos/Runner/StatusBarManager.swift:49-81 | an update changes only the item the manager holds, and no item when it holds none; the set of live items is unchanged |
| StatusBar.RepaintedLastWins | macos/Runner/StatusBarManager.swift:72-81 | of two updates of the same item, the later one decides everything the item shows |
| StatusBar.MainThread.NewStatusItem | macos/Runner/StatusBarManager.swift:13 | a new item gets a fresh id, never a live one, and is added with an empty button |
| StatusBar.MainThread.RemoveStatusItem | macos/Runner/StatusBarManager.swift:92 | removal takes exactly that item off the status bar |
| StatusBar.MainThread.Async | macos/Runner/StatusBarManager.swift:48 | a submitted block goes to the back of the main queue |
| StatusBar.MainThread.TakeNext | macos/Runner/StatusBarManager.swift:48-90 | the run loop takes the oldest block first: the FIFO order of `DispatchQueue.main`, onto which both dispatch sites (lines 48 and 90) submit |
| StatusBar.StatusBarManager.constructor | macos/Runner/StatusBarManager.swift:7-10 | a new manager has one reference and holds one new item with the default template image, tooltip "Labby" and itself as click target |
| StatusBar.StatusBarManager.SetupStatusBar | macos/Runner/StatusBarManager.swift:12-36 | setup creates a fresh item and gives it the template image, the "Labby" tooltip and this manager as target; no other item changes |
| StatusBar.StatusBarManager.UpdateIcon | macos/Runner/StatusBarManager.swift:47-48 | updateIcon draws nothing at once: it queues one block, which holds one more reference to the manager |
| StatusBar.StatusBarManager.DrawStatus | macos/Runner/StatusBarManager.swift:49-81 | the block reads the manager's item only when it runs, and repaints that item alone |
| StatusBar.StatusBarManager.ClearStatus | macos/Runner/StatusBarManager.swift:85-95 | clearStatus forgets the item at once and queues the removal of the item it held |
| StatusBar.StatusBarManager.Release | macos/Runner/StatusBarManager.swift:97-99 | dropping a reference lowers the count by one; dropping the last one runs clearStatus, and otherwise the item and the queue are untouched |
| AppSpec.UpdateArgsRoundTrip | macos/Runner/AppDelegate.swift:29-31 | the handler reads back exactly the icon and tooltip the caller sent, whatever other keys come along |
| AppSpec.UpdateArgsAccepts | macos/Runner/AppDelegate.swift:29-31 | arguments are accepted exactly when they are a string-keyed map whose "icon" and "tooltip" entries are strings, and then those strings are used |
| AppSpec.StartInv | macos/Runner/AppDelegate.swift:6 | the invariant holds before any command |
| AppSpec.ReleaseKeepsInv | macos/Runner/StatusBarManager.swift:97-99 | dropping a reference that is counted keeps the invariant, including when deinit runs |
| AppSpec.InitializeSpec | macos/Runner/AppDelegate.swift:25-27 | initialize answers nil whatever its arguments, and makes the new manager the delegate's, with one reference and a new item, never a live one, showing the default look |
| AppSpec.InitializeKeepsInv | macos/Runner/AppDelegate.swift:25-27 | initialize keeps the invariant, also when it releases a previous manager |
| AppSpec.ReinitializeLeavesOneItem | macos/Runner/AppDelegate.swift:25-27 | after a re-initialize and once the queue has drained, only the new manager's item is live |
| AppSpec.UpdateIconNoOp | macos/Runner/AppDelegate.swift:28-34 | updateIcon with malformed arguments, or with no manager, answers success and changes nothing |
| AppSpec.UpdateIconQueues | macos/Runner/AppDelegate.swift:28-34 | updateIcon with a manager and any accepted arguments (extra keys included) answers success and moves the world as UpdateIcon: one block holding the manager is queued, and no item changes yet |
| AppSpec.UpdateIconKeepsInv | macos/Runner/AppDelegate.swift:32 | queuing an update block keeps the invariant |
| AppSpec.StaleUpdateDrawsNothing | macos/Runner/StatusBarManager.swift:49 | an update block whose manager holds no item when it runs changes no item |
| AppSpec.UpdateDrawsDot | macos/Runner/StatusBarManager.swift:49-81 | an update block repaints its manager's live item as a non-template dot of the keyword's colour with the tooltip, and leaves every other item alone |
| AppSpec.ClearSpec | macos/Runner/AppDelegate.swift:35-38 | clear answers nil; with no manager it changes nothing, and otherwise it drops the manager, leaves the live items as they are and queues the removal of its item exactly once; a second clear also answers nil and changes nothing |
| AppSpec.ClearKeepsInv | macos/Runner/AppDelegate.swift:35-38 | clear keeps the invariant |
| AppSpec.UnknownMethodSpec | macos/Runner/AppDelegate.swift:39-40 | any other method name answers "not implemented" and changes nothing |
| AppSpec.TerminateThenClear | macos/Runner/AppDelegate.swift:53-56 | termination keeps the manager and every live item, forgets the manager's item and queues its removal exactly once; a later clear queues no second removal |
| AppSpec.TerminateKeepsInv | macos/Runner/AppDelegate.swift:53-56 | termination keeps the invariant |
| AppSpec.HandleKeepsInv | macos/Runner/AppDelegate.swift:24-41 | every command the handler accepts keeps the invariant |
| AppSpec.InvRunnable | macos/Runner/StatusBarManager.swift:48 | under the invariant, the manager of the oldest queued update block is still alive, because the block holds it |
| AppSpec.StepKeepsInv | macos/Runner/StatusBarManager.swift:48-94 | running any queued block keeps the invariant, and the number of queued update blocks or the queue length goes down |
| AppSpec.StepKeepsCurrent | macos/Runner/StatusBarManager.swift:48-94 | no block changes the delegate's manager or the item that manager holds |
| AppSpec.IdleHoldsOnlyCurrent | macos/Runner/StatusBarManager.swift:85-99 | no item leaks: with nothing queued, the only live item is the one the delegate's manager holds, so at most one item is live |
| AppSpec.DrainSpec | macos/Runner/StatusBarManager.swift:85-99 | draining the queue keeps the invariant, the delegate's manager and its item, and leaves at most that one item live |
| AppSpec.InitializeThenUpdate | macos/Runner/AppDelegate.swift:25-34 | initialize then updateIcon: once the queue drains, exactly one item shows a dot of the keyword's colour with the tooltip |
| AppSpec.PipelinePassedScenario | macos/Runner/AppDelegate.swift:28-34 | updateIcon("checkmark.circle", "Pipeline passed") after initialize ends with one green dot |
| AppSpec.BuildFailedScenario | macos/Runner/AppDelegate.swift:28-34 | updateIcon("xmark.circle", "Build failed") after initialize ends with one red dot |
| AppSpec.MissingTooltipScenario | macos/Runner/AppDelegate.swift:29-31 | updateIcon without a "tooltip" key answers success and changes nothing |
| AppSpec.InitializeThenClearScenario | macos/Runner/AppDelegate.swift:25-38 | initialize then clear: once the queue drains, no item is left |
| App.AppDelegate.constructor | macos/Runner/AppDelegate.swift:5-6 | the delegate starts with no manager, an empty status bar and an empty queue, and its invariant holds |
| App.AppDelegate.InitializeManager | macos/Runner/AppDelegate.swift:26 | assigning a new manager builds a fresh object and moves the heap as Initialize, releasing the previous manager |
| App.AppDelegate.UpdateIconCommand | macos/Runner/AppDelegate.swift:32 | the optional-chained call does nothing without a manager and otherwise moves the heap as UpdateIcon |
| App.AppDelegate.ClearCommand | macos/Runner/AppDelegate.swift:36-37 | clearStatus and then dropping the reference move the heap as Clear |
| App.AppDelegate.ApplicationWillTerminate | macos/Runner/AppDelegate.swift:53-56 | the termination hook moves the heap as Terminate and keeps the invariant |
| App.AppDelegate.RunMainTask | macos/Runner/StatusBarManager.swift:48-94 | executing the oldest block moves the heap as Step |
| App.AppDelegate.DrainMainQueue | macos/Runner/StatusBarManager.swift:48-94 | the run loop empties the queue, moves the heap as Drain and keeps the invariant |
| App.MethodCallHandler | macos/Runner/AppDelegate.swift:18-42 | with the delegate gone it answers UNAVAILABLE, "AppDelegate not available"; otherwise it moves the heap and answers as Handle, and initialize installs a fresh manager |

## Left out

- The click handler `statusBarButtonClicked` (app activation, bringing the first window to front) is not modelled. Only the click target of each item is recorded.
- Image pixels are not modelled. This covers the 16×16 canvas, the 12×12 oval, the clear background, the system "available" image and its hand-drawn fallback. Setup's image is one value, `DefaultTemplate`, and a drawn status is `Dot(color)` plus the template flag.
- A status item's `button` is taken to be always present. The `guard`/`if let` on a missing button is not modelled.
- The button's `target` is a weak reference in the Swift code. The model keeps it in the entry and never zeroes it. This is unobservable here because clicks are left out.
- Threads are not modelled. The handler runs on the main thread, and queued blocks run only when the run loop executes them (`RunMainTask`, `DrainMainQueue`). Other threads calling in are not modelled.
- App.MethodCallHandler: the delegate's weak reference is a nullable parameter. When the delegate is deallocated is outside the model.
- Channel creation (`setupMethodChannel`'s channel and its name) is not modelled. Neither are `applicationDidFinishLaunching`, the two `Bool` overrides and the calls to `super`. MainFlutterWindow.swift is not part of this model.
- Swift's `String.contains` compares extended grapheme clusters. The model compares sequences of characters.
- The `details` field of the error reply is always nil and is left out. Values other than strings and string-keyed maps are one `Other` case.
- The manager that `initialize` allocates is passed to `AppSpec.Handle` as a parameter, because allocation is not a function.
- Process exit after `applicationWillTerminate` is not modelled. The removal it queues is left pending.
