# Save-feedback banner of the snippet editor header

This project models the header's save-feedback banner (`components/Header/Message.tsx`)
of the snippet sharing service, and proves what it promises.

The store's `message` field takes one of six values. They are `IDLE`, `PENDING`, `SUCCESS`,
`ERROR`, `TOO_MANY_REQUESTS` and `LIMIT_REACHED`. The component keeps two local fields,
`showMessage` and `content`. Its message effect hides the banner for `IDLE`. For any other
value it shows the fixed entry of the `CONTENT_STATES` table. For each of those values except `PENDING`
it also arms a 2500 ms timer that writes `IDLE` back. The effect's cleanup clears that timer
when the message changes or the component unmounts. A second effect forces `IDLE` when the pathname becomes
`/dashboard`. Nothing is rendered without a session.

Files:

- `Wrappers.dfy`: the `Option` type, standing for a nullable value.
- `MessageContent.dfy`: the `Message` values and the content table (`ContentFor`), for
  `CONTENT_STATES`.
- `Banner.dfy`: the component as a state machine over values. It has the transitions
  `Update` (the store write plus the effect re-run), `Fire`, `Navigate`, `Mount` and `Unmount`, the
  render function `View`, the invariant `Inv`, and the lemmas.
- `BannerComponent.dfy`: the class `MessageBanner`. Its fields are updated in place by the
  methods `SetMessage`, `TimerFires`, `Navigate` and `Unmount`. `SetMessage` is proved to
  perform `Banner.Update`, `TimerFires` to perform `Banner.Fire`, and `Navigate` and
  `Unmount` to perform the `Banner` functions of the same name.

Timers are modelled without wall-clock time. Each timer is an entry in a map from a
fresh id to the message whose effect run armed it. A timer either fires or is cancelled by
the effect's cleanup. React runs that cleanup before each re-run of the effect and when the
component unmounts. A timer cancelled by unmounting never writes `IDLE`, so a timed message
stays in the store. The next mount on any pathname other than `/dashboard` shows it again
and arms a fresh timer (`Banner.UnmountThenRemount`); on `/dashboard` the mount forces `IDLE`
and no timer stays armed (`Banner.RemountOnDashboard`). The effect's `timeoutId` is the handle
the cleanup clears. The invariant `Inv` holds in every state reachable from a mount by message
writes, timer firings and pathname changes (`Banner.ReachableInvariant`). It says at most one timer is armed, and that this timer
belongs to the message now in the store, so a stale timer never resets a newer message.

Choices about React semantics, read from the source:

- An effect re-runs only when its dependency changes. Writing the message already in the
  store changes nothing, and a running timer is not restarted (`Banner.UpdateSameMessage`).
  Navigating to the current pathname changes nothing either.
- On mount the effects run in declaration order: the message effect, then the pathname
  effect. The local state starts as `showMessage = false`, `content = null`.
- Changing to `IDLE` keeps the previous `content`, as line 67 does. It is not rendered
  because `showMessage` is false.

Three points where the code is broader or narrower than one might expect:

- One might expect a reset on any navigation away from the editor. The code resets only
  when the pathname becomes exactly `/dashboard`.
- One might expect only the save cycle's edges (IDLE → PENDING → outcome → IDLE). The
  component accepts any change of the store's message, from any value to any other, and
  the model does too.
- One might expect only re-entering PENDING to cancel the timer. The code cancels it on
  every change of the message, which the model proves (`Banner.UpdateTimers`).

## Model

| member | source | states |
|---|---|---|
| MessageContent.ContentFor | components/Header/Message.tsx:22-50 | The table has an entry for every message except IDLE, and none for IDLE |
| MessageContent.ContentIdsDistinct | components/Header/Message.tsx:22-50 | The five entries have pairwise distinct ids, so an entry's id identifies its message |
| MessageContent.ArmsTimer | components/Header/Message.tsx:66-72 | A message arms the reset timer iff it has a table entry and is not PENDING, that is iff it is SUCCESS, ERROR, TOO_MANY_REQUESTS or LIMIT_REACHED |
| Banner.Unmounted | components/Header/Message.tsx:53-54 | The state before any effect: it carries the store's message and the pathname, and hands out timer ids from 0 |
| Banner.Cleanup | components/Header/Message.tsx:79-83 | Clears the timer of the handle, if there is one, drops the handle, keeps every other timer and every other field |
| Banner.MessageEffect | components/Header/Message.tsx:66-77 | For IDLE: hides and keeps content and timers. Otherwise: shows the message's entry, and for a timed message arms a timer for it under the next id and records the handle |
| Banner.Update | components/Header/Message.tsx:63-84 | Leaves the state unchanged when m is already in the store; otherwise writes m, shows iff m is not IDLE, and holds a handle iff m arms a timer, under the next id |
| Banner.Fire | components/Header/Message.tsx:73-75 | The fired timer is gone and the message is IDLE, hidden when the message was not already IDLE, content and pathname kept |
| Banner.Navigate | components/Header/Message.tsx:86-90 | Records the new pathname; the same pathname changes nothing; a new /dashboard pathname forces IDLE; any other pathname changes only the pathname |
| Banner.Mount | components/Header/Message.tsx:52-90 | The mounted state has the given pathname, the store's message (IDLE on /dashboard), and is shown iff that message is not IDLE |
| Banner.View | components/Header/Message.tsx:92-99 | Renders the content iff there is a session, showMessage holds and content is non-null, and then renders exactly that content |
| Banner.Unmount | components/Header/Message.tsx:79-83 | The unmount cleanup clears the handle's timer and keeps the message in the store |
| Banner.UnmountClears | components/Header/Message.tsx:79-83 | After unmounting a reachable state no timer is armed and the message in the store is unchanged |
| Banner.UnmountThenRemount | components/Header/Message.tsx:52-83 | After unmounting no timer is armed and the message is kept; mounting again on any pathname other than /dashboard shows that message's entry and arms a timer iff the message is timed |
| Banner.RemountOnDashboard | components/Header/Message.tsx:52-90 | Mounting again on /dashboard after an unmount forces IDLE: the banner is hidden and no timer stays armed |
| Banner.UnmountedHidden | components/Header/Message.tsx:53-54 | Before any effect runs, the banner is hidden, content is null and no timer is armed |
| Banner.MountIdle | components/Header/Message.tsx:53-90 | Mounting with the store at IDLE leaves the banner hidden, contentless and with no timer |
| Banner.MountInv | components/Header/Message.tsx:53-90 | The mounted state satisfies the invariant; mounting on /dashboard leaves the message IDLE |
| Banner.UpdateToIdle | components/Header/Message.tsx:66-67 | Changing to IDLE hides the banner, leaves no timer armed, and keeps content and pathname |
| Banner.UpdateToShown | components/Header/Message.tsx:68-70 | Changing to a non-IDLE message shows the banner with exactly that message's table entry |
| Banner.UpdateTimers | components/Header/Message.tsx:64-83 | A change cancels every earlier timer, and arms exactly one fresh timer for the new message iff it is SUCCESS, ERROR, TOO_MANY_REQUESTS or LIMIT_REACHED |
| Banner.UpdateSameMessage | components/Header/Message.tsx:84 | Writing the message already in the store changes nothing, so a running timer is not restarted |
| Banner.FireResets | components/Header/Message.tsx:73-75 | A timer that fires was armed for the current message; firing only writes IDLE, which hides the banner and leaves no timer |
| Banner.NavigateEffect | components/Header/Message.tsx:86-90 | A new pathname of "/dashboard" forces IDLE with no timer; any other new pathname changes nothing but the pathname |
| Banner.StepInv | components/Header/Message.tsx:63-90 | Every message write, timer firing and pathname change keeps the invariant |
| Banner.RunInv | components/Header/Message.tsx:63-90 | The invariant holds after any sequence of events |
| Banner.ReachableInvariant | components/Header/Message.tsx:63-90 | In every state reachable from a mount, at most one timer is armed, and it belongs to the current message |
| Banner.PendingPersists | components/Header/Message.tsx:72-76 | PENDING arms no timer: with no other message write and no move to /dashboard, it stays shown indefinitely |
| Banner.ViewMatchesMessage | components/Header/Message.tsx:92-99 | In a reachable state the render shows the current message's entry iff there is a session and the message is not IDLE |
| Banner.NoSessionNoView | components/Header/Message.tsx:92 | Without a session nothing is rendered, whatever the state |
| BannerComponent.MessageBanner.constructor | components/Header/Message.tsx:52-90 | Mounting sets the fields to the mounted state, which is valid; with an IDLE store it is hidden with no timer |
| BannerComponent.MessageBanner.CleanupMessageEffect | components/Header/Message.tsx:79-83 | The cleanup clears the timer of the previous effect run, if any, and drops the handle |
| BannerComponent.MessageBanner.RunMessageEffect | components/Header/Message.tsx:66-77 | The effect body hides for IDLE; otherwise it shows the table entry and, except for PENDING, arms a fresh timer |
| BannerComponent.MessageBanner.WriteMessage | components/Header/Message.tsx:63-84 | A store write re-runs cleanup and effect only when the value changes |
| BannerComponent.MessageBanner.SetMessage | components/Header/Message.tsx:63-84 | Keeps the invariant; sets the message; hides or shows the entry; arms a timer iff the new message arms one; cancels all earlier timers |
| BannerComponent.MessageBanner.TimerFires | components/Header/Message.tsx:73-75 | Keeps the invariant; the fired timer was armed for the current message; afterwards the message is IDLE, hidden, content kept, no timer |
| BannerComponent.MessageBanner.Navigate | components/Header/Message.tsx:86-90 | Keeps the invariant; a new pathname of /dashboard forces IDLE with no timer; otherwise only the pathname changes |
| BannerComponent.MessageBanner.Unmount | components/Header/Message.tsx:79-83 | Performs Banner.Unmount: the message stays as it was and no timer is armed |
| BannerComponent.MessageBanner.Rendered | components/Header/Message.tsx:92-99 | For a valid banner, renders the current message's entry iff there is a session and the message is not IDLE |

## Left out

- The 2500 ms delay has no clock. `ResetDelayMs` records the constant, and a fired timer is
  an event that may happen at any time while the timer is armed.
- React's scheduling is not modelled: re-render timing, batching and strict-mode double
  effects. A store write and its effect re-run are one atomic step.
- The `if (timeoutId)` test at line 80 is taken as always true for an armed handle, because
  browser timer ids are positive.
- Both effects also depend on the store's `update` function (lines 84 and 90). The model
  assumes it is a stable reference, so the effects re-run only when the message or the
  pathname changes. lib/store is not part of this model.
- Icons, class names, the `Wrapper` animation and the `AnimatePresence` key are
  presentational. Content is reduced to its `id` and `text`.
- The session comes from an external authentication library. It is a boolean input to
  `View` and `Rendered`.
- `components/Settings/index.tsx` is left out. It is DOM geometry, resize listeners and
  drag animation, with no logic of its own.
- `components/Select.tsx` and `components/Settings/Choices.tsx` are left out. They are
  widgets whose only logic is a one-line store write. lib/store and lib/find are not part
  of this model.
- `lib/fetcher.ts` is left out. It is a thin wrapper over network I/O.
- The page files are left out. They are server rendering and storage calls with no banner
  logic.
- The store itself is not part of this model beyond its `message` field.
