/**
 * The `Message` header component as an object: the store's `message` field,
 * the component's `showMessage` and `content` fields, the `timeoutId` handle
 * of the current message-effect run, the armed reset timers and the current
 * pathname are fields that its methods update in place. Each method is proved
 * to perform exactly one transition of module Banner (`SetMessage` performs
 * `Update`, `TimerFires` performs `Fire`, `Navigate` and `Unmount` the
 * functions of the same name), whose lemmas state what the transitions promise.
 */
module BannerComponent {
  import opened Wrappers
  import opened MessageContent
  import opened Banner

  class MessageBanner {
    var message: Message
    var showMessage: bool
    var content: Option<Content>
    var timeoutId: Option<TimerId>
    var timers: map<TimerId, Message>
    var nextTimerId: TimerId
    var pathname: string

    /** The fields as a value of the state machine. */
    function Model(): State
      reads this
    {
      State(message, showMessage, content, timeoutId, timers, nextTimerId, pathname)
    }

    predicate Valid()
      reads this
    {
      Inv(Model())
    }

    /** Some reset timer is armed. */
    predicate TimerArmed()
      reads this
    {
      timers != map[]
    }

    /** Mount with the store's current message at the current pathname. */
    constructor (initialMessage: Message, initialPathname: string)
      ensures Model() == Mount(initialMessage, initialPathname)
      ensures Valid()
      ensures initialMessage == IDLE ==> !showMessage && content.None? && !TimerArmed()
    {
      message, pathname := initialMessage, initialPathname;
      showMessage, content := false, None;
      timeoutId, timers, nextTimerId := None, map[], 0;
      new;
      RunMessageEffect();
      if pathname == Dashboard {
        WriteMessage(IDLE);
      }
      MountInv(initialMessage, initialPathname);
    }

    /** The cleanup of the previous message-effect run: clear its timer. */
    method CleanupMessageEffect()
      modifies this
      ensures Model() == Cleanup(old(Model()))
    {
      if timeoutId.Some? {
        timers := timers - {timeoutId.value};
      }
      timeoutId := None;
    }

    /** The body of the message effect for the message now in the store. */
    method RunMessageEffect()
      modifies this
      ensures Model() == MessageEffect(old(Model()))
    {
      if message == IDLE {
        showMessage := false;
      } else {
        showMessage := true;
        content := ContentFor(message);
        if message != PENDING {
          timers := timers[nextTimerId := message];
          timeoutId := Some(nextTimerId);
          nextTimerId := nextTimerId + 1;
        }
      }
    }

    /** The store write of `message`, followed by the cleanup and re-run of the message effect on a change. */
    method WriteMessage(m: Message)
      modifies this
      ensures Model() == Update(old(Model()), m)
    {
      if m != message {
        message := m;
        CleanupMessageEffect();
        RunMessageEffect();
      }
    }

    /**
     * `update("message", m)`: when the value changes, the previous effect run is
     * cleaned up and the effect re-runs; the banner then shows `m`'s entry, or
     * is hidden for IDLE, and a timer is armed iff `m` arms one.
     */
    method SetMessage(m: Message)
      requires Valid()
      modifies this
      ensures Valid()
      ensures Model() == Update(old(Model()), m)
      ensures message == m && pathname == old(pathname)
      ensures m == IDLE ==> !showMessage && content == old(content) && !TimerArmed()
      ensures m != IDLE ==> showMessage && content == ContentFor(m)
      ensures m != old(message) ==> (TimerArmed() <==> ArmsTimer(m))
      ensures m != old(message) ==> forall id :: id in old(timers) ==> id !in timers
      ensures m == old(message) ==> Model() == old(Model())
    {
      ghost var was := Model();
      WriteMessage(m);
      if m != was.message {
        UpdateTimers(was, m);
      }
      StepInv(was, Event.SetMessage(m));
    }

    /** The armed reset timer `id` fires and writes IDLE to the store. */
    method TimerFires(id: TimerId)
      requires Valid() && id in timers
      modifies this
      ensures Valid()
      ensures Model() == Fire(old(Model()), id)
      ensures old(timers)[id] == old(message)
      ensures message == IDLE && !showMessage && content == old(content) && !TimerArmed()
    {
      ghost var was := Model();
      FireResets(was, id);
      timers := timers - {id};
      WriteMessage(IDLE);
      StepInv(was, Event.TimerFires(id));
    }

    /** The pathname changes; arriving at "/dashboard" forces IDLE. */
    method Navigate(path: string)
      requires Valid()
      modifies this
      ensures Valid()
      ensures Model() == Banner.Navigate(old(Model()), path)
      ensures pathname == path
      ensures path != old(pathname) && path == Dashboard ==> message == IDLE && !showMessage && !TimerArmed()
      ensures path == old(pathname) ==> Model() == old(Model())
      ensures path != Dashboard ==> Model() == old(Model()).(pathname := path)
    {
      ghost var was := Model();
      if path != pathname {
        pathname := path;
        if path == Dashboard {
          WriteMessage(IDLE);
        }
        StepInv(was, Event.PathChanges(path));
      }
    }

    /**
     * The component unmounts: the cleanup of the last effect run clears its
     * timer, and the message stays in the store as it was.
     */
    method Unmount()
      requires Valid()
      modifies this
      ensures Model() == Banner.Unmount(old(Model()))
      ensures message == old(message) && !TimerArmed()
    {
      CleanupMessageEffect();
      UnmountClears(old(Model()));
    }

    /** What the component renders for the given session state. */
    function Rendered(hasSession: bool): (r: Option<Content>)
      reads this
      ensures Valid() ==> r == if hasSession && message != IDLE then ContentFor(message) else None
    {
      View(Model(), hasSession)
    }
  }
}
