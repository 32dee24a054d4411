# Responsive layout engine of the shared slot-game package, in Dafny

This project models the layout core of `packages/shared`: the code that decides where every
on-screen element of a slot game sits for the current window and when it is shown.

- **Style resolver** (`position_by_style.dfy`, module `PositionByStyle`). `getPositionByStyle`
  compares the window's aspect ratio with three thresholds: 9/16, the configured
  `aspectRatioThreshold`, and the landscape art ratio. From that it classifies the window as one
  of four styles (Train, Rectangle, Square, Sword). It then picks the dimension to fit, and
  spreads that style's rule from the element's position table over the computed fields. `Place`
  is the formula every element applies: `scale = dividend / divisor`, offset from the window's
  centre.
- **Resize broadcaster** (`resize_manager.dfy`, module `ResizeBroadcast`). This is the lazily
  created singleton `ResizeManager`. Its listener list is append-only and free of duplicates,
  and a resize calls the listeners in registration order. Listeners are identified by ids.
- **Scene-graph builder** (`layout_manager.dfy`, module `SceneGraph`). It contains:
  - the two-entry factory registry;
  - the depth-first recursive `createElement`, which returns the built tree, or the error it
    throws, together with the ordered trace of `addChild` and `"<label>_added"` actions;
  - the `LayoutManager` class that builds `classes[0]`.
- **Machine contract and load status** (`machine.dfy`, module `Machine`). This covers the actor
  snapshot that the elements read and the events they send. It also defines, once, the
  load-status update `{...elementLoadStatus, [label]: {isLoaded: true, label}}` that four widgets
  perform.
- **Element widgets**, one class per source class. Each holds its fields and has one method per
  handler. Each of these has its own module and file:
  - `TetraSprite`, `TetraButton`, `Mockup`, `BackgroundSprite` and `TetraAnimateSprite`;
  - `SpineAnimation`, whose two orientation slots hold spine objects;
  - `Button`;
  - `TetraLayoutContainer`, with its wait-then-reveal flags;
  - `LoadScreen`, with its progress accumulator and click transition.

  The per-element config record they share is in `element_config.dfy`.

Things outside these files become parameters or explicit calls:
- The window size (`app.screen`) is a `Viewport` parameter. Its height is positive.
- Timers (`setTimeout`) are counters of pending timers, with one `Fire…` method per kind of timer.
- Asynchronous load completions are methods, for example `TextureLoaded` and `HighSheetLoaded`.
  Each returns the effects it causes, in order.
- Events sent to the actor are out-parameters. The snapshot an element reads is a parameter.
- `getOrientation`, `getSpineSource`, `getPosition` and `getStatus` are not part of this model.
  Their results are parameters.

Numbers are exact reals, so the comparisons of the resolver are exact. The model states them
divided, as the source does, and proves them equal to a division-free cross-multiplied form.

### Behaviour of the code worth knowing

- The builder announces one attachment per non-root node, grandchildren before their parents.
  A three-level tree (root, two children, one grandchild each) therefore announces **four**
  attachments (`SceneGraph.ThreeLevelTree`).
- A container that waits for its parent's size checks the wait only against machine
  snapshots. A resize broadcast during the wait calls `updatePosition`, which shows the
  container as its rule says (`TetraLayoutContainerWidget.ResizeDuringWaitShows`). Several
  `_added` notifications that arrive before the first reveal timer fires each schedule a reveal.
- `document.body.onresize` is a single slot. Each container that is constructed replaces the
  previous handler, so only the last container reacts to a body resize
  (`TetraLayoutContainerWidget.LastContainerOwnsBodyResize`).
- `Button` checks `hasBeenInitialized` when a snapshot arrives, not when the timer fires. Two
  idle snapshots before the first timer therefore schedule two repositions
  (`ButtonWidget.TwoIdleSnapshotsScheduleTwoTimers`).
- The 9-second timeout of `LoadScreen.checkProgress` calls `handleClick` without checking
  `hasClicked`. Every progress report that does not land exactly on 1 arms one such timeout.
- `sendLoadedEvent` copies the map from the snapshot it reads. If two reports were ever built
  from the same snapshot, the second would lack the first's entry
  (`Machine.StaleSnapshotLosesUpdate`). Each report reads and sends synchronously, so the model
  does not show that this happens.

## Model

| member | source | states |
|---|---|---|
| PositionByStyle.Resolve | packages/shared/src/utils/getPositionByStyle.ts:7-60 | in each of the four aspect-ratio regions the result is that region's style, its fit dimension (height for Train and Square, width for Rectangle and Sword) and that style's rule from the right orientation, spread over them |
| PositionByStyle.RegionsPartition | packages/shared/src/utils/getPositionByStyle.ts:17-59 | every window falls in exactly one of the four regions: they are exhaustive and pairwise disjoint; 9/16 itself is Sword |
| PositionByStyle.ResolveMatchesCrossMultiplied | packages/shared/src/utils/getPositionByStyle.ts:10-59 | the resolver equals the division-free classification (`16w <= 9h`, `w <= threshold*h`, `w*lh <= lw*h`) with the same fit dimension and rule, for every window and configuration |
| PositionByStyle.RuleKeysOverride | packages/shared/src/utils/getPositionByStyle.ts:17-59 | for every window, `x`, `y`, `divisor` and `visible` come from the rule of the window's region, and a `style` or `dividend` key in that rule wins over the region's style and fitted dimension |
| PositionByStyle.PlaceFitsViewport | packages/shared/src/ui/TetraSprite.ts:53-68 | the placement formula scales the rule's reference size to exactly the fitted window dimension (unless the rule overrides the dividend), and the offset from the window centre is the rule's offset in reference units |
| PositionByStyle.DesktopIsTrain | packages/shared/src/utils/getPositionByStyle.ts:20-27 | a 1920x1080 window with threshold 1.4 and 16:10 art resolves to Train (or the rule's own style key) |
| PositionByStyle.PhoneIsSword | packages/shared/src/utils/getPositionByStyle.ts:48-59 | an upright 1080x1920 window resolves to Sword under any configuration |
| PositionByStyle.TabletIsSquare | packages/shared/src/utils/getPositionByStyle.ts:38-47 | a 1024x768 window below threshold 1.4 resolves to Square |
| ResizeBroadcast.Subscribed | packages/shared/src/ui/ResizeManager.ts:23-28 | subscribing keeps the old list as a prefix, adds the callback exactly when absent, and keeps the list free of duplicates |
| ResizeBroadcast.SubscribeIdempotent | packages/shared/src/ui/ResizeManager.ts:25 | subscribing the same callback twice equals subscribing it once |
| ResizeBroadcast.NoDuplicatesOccursOnce | packages/shared/src/ui/ResizeManager.ts:24-28 | in a duplicate-free list every listener occurs exactly once |
| ResizeBroadcast.ResizeManager.constructor | packages/shared/src/ui/ResizeManager.ts:4-8 | a new manager has no listeners |
| ResizeBroadcast.ResizeManager.Subscribe | packages/shared/src/ui/ResizeManager.ts:23-28 | the listener list becomes `Subscribed(old list, cb)` and stays duplicate-free |
| ResizeBroadcast.ResizeManager.HandleResize | packages/shared/src/ui/ResizeManager.ts:17-20 | listeners are called in registration order; with no throwing listener every listener is called exactly once; a throw stops the walk at the first throwing listener |
| ResizeBroadcast.ResizeManagerStatics.GetInstance | packages/shared/src/ui/ResizeManager.ts:3-15 | the instance is created only when none exists, and the same instance is returned on every later call |
| ResizeBroadcast.SubscribeTwiceThroughInstance | packages/shared/src/ui/ResizeManager.ts:10-28 | two `getInstance` calls return the same manager; subscribing a callback twice through it and then resizing calls that callback exactly once |
| SceneGraph.BuildShape | packages/shared/src/core/LayoutManager.ts:106-143 | the build succeeds iff every node names a registered factory (`Root` or `TetraSprite`), and the built tree has the config tree's shape, labels and child order |
| SceneGraph.BuildChildrenShape | packages/shared/src/core/LayoutManager.ts:126-140 | the children loop succeeds iff every remaining child builds, and then appends one mirrored element per child, in config order |
| SceneGraph.BuildTrace | packages/shared/src/core/LayoutManager.ts:106-143 | every `_added` emission comes right after its own attach; on success the emitted labels are the post-order of the non-root nodes; on an abort they are a proper prefix of it: the aborting node and everything after it are never announced |
| SceneGraph.BuildChildrenTrace | packages/shared/src/core/LayoutManager.ts:126-140 | the same ordering and post-order facts for the children loop from any child on |
| SceneGraph.PostOrderLength | packages/shared/src/core/LayoutManager.ts:126-140 | the post-order lists every node exactly once by count |
| SceneGraph.PostOrderFromLength | packages/shared/src/core/LayoutManager.ts:126-140 | the post-order of the children from child `i` has as many entries as those subtrees have nodes |
| SceneGraph.AnnouncesAllButRoot | packages/shared/src/core/LayoutManager.ts:96-140 | a fully registered tree builds and announces exactly `nodes - 1` labels, the root last in post-order and never announced |
| SceneGraph.ThreeLevelTree | packages/shared/src/core/LayoutManager.ts:126-140 | root, two children, one grandchild each: the announcements are `a1, a, b1, b` |
| SceneGraph.LayoutManager.constructor | packages/shared/src/core/LayoutManager.ts:72-81 | construction runs one layout pass: the registry is empty; if the build succeeds the built root is the only child and there is no error; if it throws there are no children and `constructionError` holds the error thrown |
| SceneGraph.LayoutManager.UpdateLayout | packages/shared/src/core/LayoutManager.ts:83-104 | the registry is reset to empty; only `classes[0]` is built; the root is appended on success; with no class or after a throw the children are unchanged and the error is returned |
| Machine.MarkLoaded | packages/shared/src/ui/TetraButton.ts:76-92 | only the element's own entry changes; it becomes `{isLoaded: true, label}`; the loaded set gains exactly that label |
| Machine.MarkLoadedIdempotent | packages/shared/src/ui/TetraButton.ts:87-90 | reporting the same element twice gives the map that reporting it once gives |
| Machine.MarkLoadedCommutes | packages/shared/src/ui/BackgroundSprite.ts:71-87 | reports of two different elements, each applied to the latest map, commute and both survive |
| Machine.StaleSnapshotLosesUpdate | packages/shared/src/ui/Button.ts:110-126 | if a second report is built from the snapshot the first one also read, the second lacks the first's entry |
| Machine.MarkAllLoadedIsUnion | packages/shared/src/ui/SpineAnimation.ts:82-98 | applying the reports of a sequence of elements in turn equals the old map overridden by their loaded records |
| Machine.LoadedNeverReverts | packages/shared/src/ui/SpineAnimation.ts:82-98 | applied in turn, reports never unload an element, and every reported element ends loaded |
| ElementConfigs.ConfiguredZIndex | packages/shared/src/ui/TetraSprite.ts:28 | because the default zIndex is itself 0, the truthiness test is the same as taking the key whenever it is present: the result is the key's value, or the default when the key is absent |
| ElementConfigs.CombinedVisibility | packages/shared/src/ui/Mockup.ts:57-71 | `isVisible === visible ? visible : false` is shown iff both the mode and the rule say shown |
| TetraSpriteWidget.TextureSourceDeterminesKeys | packages/shared/src/ui/TetraSprite.ts:43-51 | two configs load the same texture iff they agree on `useSpriteSheet` and `texture`, and on `sheet` when a sheet is used: the texture identifies the keys it came from, and `sheet` is ignored without `useSpriteSheet` |
| TetraSpriteWidget.TetraSprite.constructor | packages/shared/src/ui/TetraSprite.ts:15-37 | label and alpha copied; zIndex only when truthy; `visible` copied only when the key is present, else visible |
| TetraSpriteWidget.TetraSprite.UpdatePosition | packages/shared/src/ui/TetraSprite.ts:53-68 | scale, x and y are the placement of the resolved rule, and `visible` is the rule's |
| TetraSpriteWidget.TetraSprite.TextureLoaded | packages/shared/src/ui/TetraSprite.ts:39-51 | the chosen texture is set, then the sprite is positioned |
| TetraButtonWidget.TetraButton.constructor | packages/shared/src/ui/TetraButton.ts:15-36 | label copied, zIndex only when truthy |
| TetraButtonWidget.TetraButton.UpdatePosition | packages/shared/src/ui/TetraButton.ts:38-51 | scale and position from the resolved rule; `visible` is outside the frame and so never changes |
| TetraButtonWidget.TetraButton.HandleHighLowShift | packages/shared/src/ui/TetraButton.ts:53-74 | without `spriteSheet` nothing changes and nothing is sent; with one, the low frame is set, then the load record is sent, then the high load starts |
| TetraButtonWidget.TetraButton.HighSheetLoaded | packages/shared/src/ui/TetraButton.ts:63-72 | the high sheet's frame replaces the low one |
| TetraButtonWidget.TetraButton.Init | packages/shared/src/ui/TetraButton.ts:94-100 | with `spriteSheet`, the low frame is set, the load record sent and the high load pending, then the button is repositioned; without it only the reposition happens |
| MockupWidget.Mockup.constructor | packages/shared/src/ui/Mockup.ts:18-46 | label and alpha copied, zIndex only when truthy, hidden by mode until a snapshot |
| MockupWidget.Mockup.UpdatePosition | packages/shared/src/ui/Mockup.ts:57-71 | placement from the resolved rule; `visible == (isVisible && rule.visible)` |
| MockupWidget.Mockup.OnSnapshot | packages/shared/src/ui/Mockup.ts:38-45 | `isVisible` is the mode's `visibilityState` entry, and every snapshot repositions: scale, position and the combined visibility |
| MockupWidget.Mockup.TextureLoaded | packages/shared/src/ui/Mockup.ts:48-55 | the image file is set, then scale, position and the combined visibility follow the resolved rule |
| BackgroundSpriteWidget.BackgroundSprite.constructor | packages/shared/src/ui/BackgroundSprite.ts:17-41 | label copied, hidden by mode until a snapshot |
| BackgroundSpriteWidget.BackgroundSprite.UpdatePosition | packages/shared/src/ui/BackgroundSprite.ts:55-69 | placement from the resolved rule; `visible == (isVisible && rule.visible)` |
| BackgroundSpriteWidget.BackgroundSprite.OnSnapshot | packages/shared/src/ui/BackgroundSprite.ts:34-40 | `isVisible` is the mode's `visibilityState` entry, and every snapshot repositions: scale, position and the combined visibility |
| BackgroundSpriteWidget.BackgroundSprite.TextureLoaded | packages/shared/src/ui/BackgroundSprite.ts:43-53 | the image file is set, the sprite fully repositioned, and only then the load record sent |
| TetraAnimateSpriteWidget.TetraAnimateSprite.constructor | packages/shared/src/ui/TetraAnimateSprite.ts:15-36 | label and alpha copied, zIndex only when truthy, hidden |
| TetraAnimateSpriteWidget.TetraAnimateSprite.UpdatePosition | packages/shared/src/ui/TetraAnimateSprite.ts:66-79 | scale and position from the resolved rule; `visible` is outside the frame |
| TetraAnimateSpriteWidget.TetraAnimateSprite.TextureLoaded | packages/shared/src/ui/TetraAnimateSprite.ts:38-48 | the image file is set, then scale and position follow the resolved rule |
| TetraAnimateSpriteWidget.StaysHidden | packages/shared/src/ui/TetraAnimateSprite.ts:32-79 | a constructed sprite is still hidden after its texture loads and after a later reposition: neither handler writes `visible` |
| SpineAnimationWidget.SpineAnimation.constructor | packages/shared/src/ui/SpineAnimation.ts:25-54 | label copied, zIndex only when truthy, hidden, no spine yet |
| SpineAnimationWidget.SpineAnimation.OnSnapshot | packages/shared/src/ui/SpineAnimation.ts:45-50 | `visible` is the mode's `visibilityState` entry |
| SpineAnimationWidget.SpineAnimation.LoadSpine | packages/shared/src/ui/SpineAnimation.ts:112-142 | no source: nothing; failed load: rethrown, nothing created; otherwise a fresh spine fills the current orientation's slot only if it was empty and creation succeeds; an occupied slot keeps its spine |
| SpineAnimationWidget.SpineAnimation.UpdateSpineVisibility | packages/shared/src/ui/SpineAnimation.ts:184-191 | the portrait spine is visible iff portrait and the landscape spine iff landscape; nothing else changes |
| SpineAnimationWidget.SpineAnimation.UpdateSpinePosition | packages/shared/src/ui/SpineAnimation.ts:162-181 | `imageScale` is always updated; only the current orientation's spine, if present, is placed; the other is untouched |
| SpineAnimationWidget.SpineAnimation.InitSpine | packages/shared/src/ui/SpineAnimation.ts:56-74 | after a load that did not throw the spines are settled for the orientation; a throw is caught and leaves everything as it was |
| SpineAnimationWidget.SpineAnimation.Init | packages/shared/src/ui/SpineAnimation.ts:56-80 | the load record is sent after `initSpine` whether or not it failed, with `initSpine`'s whole new state: a successful creation fills the current orientation's slot, an occupied slot keeps its spine, a load without a throw leaves the spines settled, and a caught load failure leaves slots, `imageScale` and both poses unchanged |
| SpineAnimationWidget.SpineAnimation.Resize | packages/shared/src/ui/SpineAnimation.ts:100-110 | after a resize the spines are settled for the new orientation even if loading failed, and no existing spine is replaced |
| SpineAnimationWidget.RotateKeepsSpines | packages/shared/src/ui/SpineAnimation.ts:130-137 | after rotating back and forth, each slot still holds the very spine created by the first resize into its orientation, the two are distinct objects, and the element is settled for the last orientation |
| ButtonWidget.ChosenFrameIsFreeIff | packages/shared/src/ui/Button.ts:74-103 | with distinct frames, the free frame is chosen iff `isFreeSpin && needFreeTextureWhenHighLowShift`, and the normal frame iff not |
| ButtonWidget.Button.constructor | packages/shared/src/ui/Button.ts:20-36 | the label is applied only when non-empty |
| ButtonWidget.Button.UpdatePosition | packages/shared/src/ui/Button.ts:128-151 | scale, width and height change only when truthy, x and y only when present; nothing else changes |
| ButtonWidget.Button.OnSnapshot | packages/shared/src/ui/Button.ts:37-54 | `isFreeSpin` follows the context; IDLE or FREE_SPIN_IDLE before initialisation schedules one reposition, other statuses none |
| ButtonWidget.Button.FireInitTimer | packages/shared/src/ui/Button.ts:45-48 | the timer repositions and marks the button initialised |
| ButtonWidget.Button.HandleHighLowShift | packages/shared/src/ui/Button.ts:68-87 | without `spriteSheet` nothing changes; with one, the mode's low frame is set, then the load record is sent, then the high load starts |
| ButtonWidget.Button.HighSheetLoaded | packages/shared/src/ui/Button.ts:87-106 | the high frame for the mode current at completion replaces the low one |
| ButtonWidget.Button.Init | packages/shared/src/ui/Button.ts:60-66 | with `spriteSheet`, the mode's low frame is set, the load record sent and the high load pending; then scale, width and height change only when truthy and x and y when present |
| ButtonWidget.TwoIdleSnapshotsScheduleTwoTimers | packages/shared/src/ui/Button.ts:41-52 | two idle snapshots before the first timer fires leave a second reposition pending |
| TetraLayoutContainerWidget.Body.Resized | packages/shared/src/ui/TetraLayoutContainer.ts:42-46 | a body resize schedules one delayed reposition on the container holding the slot, and every other field of that container stays as it was |
| TetraLayoutContainerWidget.TetraLayoutContainer.constructor | packages/shared/src/ui/TetraLayoutContainer.ts:18-49 | positioned, then a truthy `scale` and `zIndex` override, then a waiting container ends hidden whatever the rule says |
| TetraLayoutContainerWidget.TetraLayoutContainer.UpdatePosition | packages/shared/src/ui/TetraLayoutContainer.ts:79-95 | `savedScale`, scale and position from the resolved rule, and `visible` is the rule's |
| TetraLayoutContainerWidget.TetraLayoutContainer.OnSnapshot | packages/shared/src/ui/TetraLayoutContainer.ts:50-63 | LOADING, IDLE and FREE_SPIN_IDLE reposition a container that does not wait; otherwise only `isFreeSpin` changes |
| TetraLayoutContainerWidget.TetraLayoutContainer.OnAdded | packages/shared/src/ui/TetraLayoutContainer.ts:65-69 | a reveal is scheduled only while waiting; afterwards notifications change nothing |
| TetraLayoutContainerWidget.TetraLayoutContainer.FireRevealTimer | packages/shared/src/ui/TetraLayoutContainer.ts:70-75 | the reveal stops the wait and leaves `visible` equal to the rule's, the intermediate `true` overwritten |
| TetraLayoutContainerWidget.TetraLayoutContainer.FireBodyResizeTimer | packages/shared/src/ui/TetraLayoutContainer.ts:43-45 | the delayed body-resize reposition |
| TetraLayoutContainerWidget.WaitThenReveal | packages/shared/src/ui/TetraLayoutContainer.ts:47-77 | a waiting container is hidden right after construction, is revealed with its rule's visibility once its timer fires, and ignores later notifications |
| TetraLayoutContainerWidget.ResizeDuringWaitShows | packages/shared/src/ui/TetraLayoutContainer.ts:40-95 | a resize during the wait shows the container per its rule while it is still waiting |
| TetraLayoutContainerWidget.LastContainerOwnsBodyResize | packages/shared/src/ui/TetraLayoutContainer.ts:42-46 | with two containers only the later one reacts to a body resize |
| LoadScreenWidget.ClickEventIdentifiesReadyState | packages/shared/src/ui/LoadScreen.ts:352-376 | the event a click sends identifies the ready state it was sent from: equal events come from equal statuses, and the free-spin event comes exactly from the free-spin ready state |
| LoadScreenWidget.LoadScreen.constructor | packages/shared/src/ui/LoadScreen.ts:50-106 | bar width `screen.width / 15`, the bar exists iff that is non-zero, no progress, label `LoadScreen`, zIndex 9999, listeners attached |
| LoadScreenWidget.LoadScreen.LoadingBarAssetsLoaded | packages/shared/src/ui/LoadScreen.ts:114-181 | the fill sprites exist once loaded, and only when the bar width is non-zero |
| LoadScreenWidget.LoadScreen.UpdateLoadingBar | packages/shared/src/ui/LoadScreen.ts:261-272 | no-op without the fills or the width; otherwise the middle fill's horizontal scale is `loadBarWidth * ratio` |
| LoadScreenWidget.LoadScreen.CheckProgress | packages/shared/src/ui/LoadScreen.ts:287-350 | at exactly 1 the bar hides, the tip and pointer handlers appear and a guarded fallback is armed; otherwise an unguarded timeout is armed |
| LoadScreenWidget.LoadScreen.AddProgress | packages/shared/src/ui/LoadScreen.ts:274-278 | progress grows by exactly the ratio, the bar follows, then the check runs |
| LoadScreenWidget.LoadScreen.UpdateProgress | packages/shared/src/ui/LoadScreen.ts:281-285 | progress grows by exactly the ratio, the bar follows, then the check runs, with the same new state as `AddProgress` |
| LoadScreenWidget.LoadScreen.HandleClick | packages/shared/src/ui/LoadScreen.ts:352-392 | in a ready state the matching event is sent, `hasClicked` is set, listeners are removed and the overlay is destroyed; otherwise nothing happens |
| LoadScreenWidget.LoadScreen.Cleanup | packages/shared/src/ui/LoadScreen.ts:378-392 | the key, resize and load-event listeners are removed |
| LoadScreenWidget.LoadScreen.KeyDown | packages/shared/src/ui/LoadScreen.ts:107-112 | only Space or Enter, only while attached and not yet clicked, triggers the click |
| LoadScreenWidget.LoadScreen.PointerDown | packages/shared/src/ui/LoadScreen.ts:326-337 | after the ready branch, a pointer down clicks until clicked; a sent event leaves the screen clicked, detached and destroyed, and no event changes nothing |
| LoadScreenWidget.LoadScreen.FireGuardedTimer | packages/shared/src/ui/LoadScreen.ts:339-343 | the 5-second fallback clicks only if nothing has clicked yet; a sent event leaves the screen clicked, detached and destroyed, and no event changes nothing |
| LoadScreenWidget.LoadScreen.FireUnguardedTimer | packages/shared/src/ui/LoadScreen.ts:345-348 | the 9-second timeout clicks regardless of `hasClicked`; a sent event leaves the screen clicked, detached and destroyed, and no event changes nothing |
| LoadScreenWidget.LoadScreen.FinishedLoadAllLowTextures | packages/shared/src/ui/LoadScreen.ts:85-87 | while the listener is attached, `addProgress(0.5)` with its whole new state (bar, ready branch or timeout); once detached, nothing changes |
| LoadScreenWidget.OnlyTheTimeoutClicksAgain | packages/shared/src/ui/LoadScreen.ts:326-376 | once a click has sent its event, a key, a pointer down and the 5-second fallback send nothing, whatever the status; only the 9-second timeout clicks again and resends the event for the status it reads |
| LoadScreenWidget.LoadScreen.ShouldRemoveLoadScreen | packages/shared/src/ui/LoadScreen.ts:88-105 | sets `hasRemoved` while the listener is attached; repeating it changes nothing |
| LoadScreenWidget.RemoveTwiceIsRemoveOnce | packages/shared/src/ui/LoadScreen.ts:88-105 | the removal handler is idempotent |
| LoadScreenWidget.HalfAndHalfThenEnter | packages/shared/src/ui/LoadScreen.ts:85-349 | two halves reach exactly 1 on the second report, which takes the ready branch after the first armed a timeout; Enter in the ready state then leaves |
| LoadScreenWidget.EarlyClickIsHarmless | packages/shared/src/ui/LoadScreen.ts:107-376 | a key press before the ready state sends nothing, and a later one still can |

## Left out

- Rendering and asset loading (pixi `Assets.load`, textures, anchors, `Spine.from`, gsap
  timelines) are foreign calls. Their outcomes are parameters: a load completes through a
  method call, and spine source and creation success are booleans. Texture identity is the
  frame or file name.
- The `LoadScreen` bar geometry that depends on sprite widths (`rightFill.x`, the background
  arcs, the container's centring) is not modelled. Neither is the loading texture's
  orientation choice and placement (`initTexture` and `updatePosition`), because
  `getLoadScreenPositionByStyle` and `getOrientation` are not part of this model. The resize
  listener that reruns them is not modelled for the same reason.
- LoadScreenWidget.LoadScreen.LoadingBarAssetsLoaded: the three fill sprites are loaded one
  after another, and the model makes them appear together when the last one has loaded. In the
  source each fill is assigned before its texture is awaited, so while the right fill's texture
  loads all three exist and a bar update already scales the middle fill. The model drops such an
  update: `fillsReady` is still false then.
- The `lockAndUpdate` busy-wait lock is not modelled. Updates are sequential calls, because the
  lock only matters for interleaving asynchronous callers.
- LoadScreenWidget.LoadScreen.PointerDown: the two pointer-down handlers (hit area and overlay)
  are one call. After the first one, the second is either guarded by `hasClicked` or sees the
  same non-ready status, so it changes nothing.
- Timer delays (10, 100, 200, 5000 and 9000 ms) are not modelled as time. Each timer is a
  pending counter, and the caller decides the order of firing.
- Floating point: numbers are exact reals. `progressRatio === 1` is exact equality on reals.
  A zero or negative divisor is excluded by the positive `divisor` type, and so are the
  division by zero, the NaN and the mirrored (negative) scale the source would produce from it.
  A zero or negative `landscapeAspectHeight` (an infinite or negative landscape ratio in the
  source) and a zero or negative window height are excluded the same way: both are typed
  positive.
- LoadScreenWidget.LoadScreen.CheckProgress: progress is an exact real, so any reports summing to
  1 take the ready branch. With IEEE doubles that holds for 0.5 + 0.5, but not for every split:
  ten reports of 0.1 end at 0.9999999999999999, where the source's `=== 1` fails and it arms the
  9-second timeout instead.
- Missing position entries (a TypeError or a NaN placement in the source) cannot occur. The
  position table is total.
- The sway animation of `TetraAnimateSprite` (`animate`, sine of a ticker time) is
  trigonometry on floats.
- Resize subscriptions made in the element constructors are not connected to the
  broadcaster model. The broadcaster itself is modelled with listener ids. Each constructor
  passes a fresh bound function, so deduplication never applies to them.
- SceneGraph.Build: a config `name` that is an inherited object key (such as `toString`) passes
  the source's missing-factory test and then throws a TypeError at `factory.create`. The model
  has no inherited keys and reports `UnknownElementType` for it. Both stop at the same node, so
  the trace and the children agree; only the error value differs.
- SceneGraph.LayoutManager.constructor: in the source the error thrown by the first layout pass
  escapes `new LayoutManager`, so the caller never gets an object and stops there (the game then
  never adds the stage child, starts the actor or resizes). The model returns the object with
  the error in `constructionError` and no children; the caller's reaction is not modelled.
- `window` and `document` listeners other than the body's resize slot, and the internals of the
  global event emitter, are not modelled. Notifications are method calls on the receiving
  element.
- ButtonWidget.Button.UpdatePosition: pixi's coupling of `width`, `height` and `scale` (setting a
  width rescales the sprite) is not modelled. The three are independent fields.
- SpineAnimationWidget.SpineAnimation.Resize: the orientation is read once and used for both
  `initSpine` and the repositioning that follows it. The source reads it twice, at the same
  moment.
- Destroying a display object (`destroy`, `removeChild`) is a `destroyed` flag. Display-tree
  removal is not modelled.
- `isFreeSpin` of `Button` is `Boolean(...)` of the context flag. The flag is already a
  boolean here.
