/**
  The feedback-prompt state machine of the iOS `ApplicationViewModel`.

  The view-model keeps the settings snapshot it reads from the settings gateway
  and one optional presented feedback dialog. Every transition is a pure
  function returning the new state together with the calls it made on the
  feedback service and the settings gateway, in order. The value that
  `FeedbackService.next()` returns is not computed here: it is an input to
  every transition that may call it (`next`), and the transition records it in
  the `Next` effect when, and only when, it actually makes the call.

  The body of `lifecycle.whileAttached { ... }` is taken to run synchronously
  while the view-model is attached.
 */
module ApplicationViewModel {
  import opened Domain

  /** The view-model's state: the settings as last read, and the presented dialog's session. */
  datatype State = State(settings: Settings, presented: Option<Session>)

  /** The outcome of one transition: the next state and the calls made, in order. */
  datatype Step = Step(state: State, effects: seq<Effect>)

  /** A step that leaves everything as it was and calls nothing. */
  predicate NoOp(st: State, r: Step)
  {
    r.state == st && r.effects == []
  }

  /** A freshly built view-model presents no feedback dialog. */
  function Init(settings: Settings): (st: State)
    ensures st.presented.None?
    ensures st.settings == settings
    ensures st.settings.useComposeForIos == settings.useComposeForIos
  {
    State(settings, None)
  }

  /**
    `presentNextFeedback`: ask the feedback service for the next session and
    present it, or present nothing when it returns null. The presented value is
    overwritten in every case: an already visible dialog is replaced without
    any check.
   */
  function PresentNextFeedback(st: State, next: Option<Session>): (r: Step)
    ensures r.state.presented == next
    ensures r.state.settings == st.settings
    ensures r.effects == [Next(next)]
  {
    Step(st.(presented := next), [Next(next)])
  }

  /**
    `onAppear`: present the next session only when the settings say feedback
    is enabled; otherwise `next()` is not called and nothing changes.
   */
  function OnAppear(st: State, next: Option<Session>): (r: Step)
    ensures !st.settings.isFeedbackEnabled ==> NoOp(st, r)
    ensures st.settings.isFeedbackEnabled ==>
      r.state == st.(presented := next) && r.effects == [Next(next)]
    ensures Next(next) in r.effects <==> st.settings.isFeedbackEnabled
  {
    if st.settings.isFeedbackEnabled then PresentNextFeedback(st, next)
    else Step(st, [])
  }

  /**
    `notificationReceived`: a feedback notification presents the next session
    without looking at the settings flag; the session id of the notification
    is not used. Any other notification type does nothing.
   */
  function NotificationReceived(st: State, sessionId: string, kind: NotificationType, next: Option<Session>): (r: Step)
    ensures kind.FeedbackNotification? ==>
      r.state == st.(presented := next) && r.effects == [Next(next)]
    ensures !kind.FeedbackNotification? ==> NoOp(st, r)
  {
    if kind == FeedbackNotification then PresentNextFeedback(st, next)
    else Step(st, [])
  }

  /**
    The dialog's `submit` continuation for the session it was built for:
    record the feedback, then present whatever `next()` returns.
   */
  function SubmitFeedback(st: State, session: Session, feedback: Feedback, next: Option<Session>): (r: Step)
    ensures r.effects == [Submit(session, feedback), Next(next)]
    ensures r.state.presented == next
    ensures r.state.settings == st.settings
  {
    var answered := Step(st, [Submit(session, feedback)]);
    var shown := PresentNextFeedback(answered.state, next);
    Step(shown.state, answered.effects + shown.effects)
  }

  /**
    The dialog's `skip` continuation for the session it was built for:
    record the skip, then present whatever `next()` returns.
   */
  function SkipFeedback(st: State, session: Session, next: Option<Session>): (r: Step)
    ensures r.effects == [Skip(session), Next(next)]
    ensures r.state.presented == next
    ensures r.state.settings == st.settings
  {
    var answered := Step(st, [Skip(session)]);
    var shown := PresentNextFeedback(answered.state, next);
    Step(shown.state, answered.effects + shown.effects)
  }

  /**
    The settings gateway's `setFeedbackEnabled`: a new snapshot differing only
    in the feedback flag.
   */
  function WithFeedbackEnabled(settings: Settings, enabled: bool): (s: Settings)
    ensures s.isFeedbackEnabled == enabled
    ensures s.useComposeForIos == settings.useComposeForIos
  {
    settings.(isFeedbackEnabled := enabled)
  }

  /**
    The dialog's `closeAndDisable` continuation: turn feedback off in the
    settings, then hide the dialog. The feedback service is not called.
   */
  function CloseAndDisable(st: State): (r: Step)
    ensures !r.state.settings.isFeedbackEnabled
    ensures r.state.presented.None?
    ensures r.state.settings.useComposeForIos == st.settings.useComposeForIos
    ensures r.effects == [SetFeedbackEnabled(false)]
  {
    Step(State(WithFeedbackEnabled(st.settings, false), None), [SetFeedbackEnabled(false)])
  }

  /**
    The inputs the view-model reacts to. User actions on a dialog carry the
    session its continuations captured; `SettingsChanged` is a new snapshot
    published by the gateway because of someone else's write.
   */
  datatype Event =
    | Appear(next: Option<Session>)
    | NotificationOpened(sessionId: string, kind: NotificationType, next: Option<Session>)
    | SubmitPressed(session: Session, feedback: Feedback, next: Option<Session>)
    | SkipPressed(session: Session, next: Option<Session>)
    | CloseAndDisablePressed
    | SettingsChanged(settings: Settings)

  /**
    One transition of the view-model. A settings snapshot published from
    outside replaces the settings wholesale and changes nothing else; the
    feedback workflow itself touches the settings only through "close and
    disable", and changes the dialog only by a step whose last call is the
    `next()` that returned it, or by that close.
   */
  function Apply(st: State, ev: Event): (r: Step)
    ensures ev.SettingsChanged? ==> r.state == st.(settings := ev.settings) && r.effects == []
    ensures !ev.SettingsChanged? && !ev.CloseAndDisablePressed? ==> r.state.settings == st.settings
    ensures r.state.presented != st.presented ==>
      && |r.effects| > 0
      && (|| r.effects[|r.effects| - 1] == Next(r.state.presented)
          || (r.state.presented.None? && r.effects[|r.effects| - 1] == SetFeedbackEnabled(false)))
    ensures |r.effects| <= 2
  {
    match ev
    case Appear(next) => OnAppear(st, next)
    case NotificationOpened(id, kind, next) => NotificationReceived(st, id, kind, next)
    case SubmitPressed(s, fb, next) => SubmitFeedback(st, s, fb, next)
    case SkipPressed(s, next) => SkipFeedback(st, s, next)
    case CloseAndDisablePressed => CloseAndDisable(st)
    case SettingsChanged(settings) => Step(st.(settings := settings), [])
  }

  /** Run a sequence of events from `st`, concatenating the calls of every step. */
  function Run(st: State, evs: seq<Event>): Step
    decreases |evs|
  {
    if |evs| == 0 then Step(st, [])
    else
      var first := Apply(st, evs[0]);
      var rest := Run(first.state, evs[1..]);
      Step(rest.state, first.effects + rest.effects)
  }
}
