/**
  Values exchanged between the iOS application view-model and the services it
  is given: sessions awaiting feedback, the feedback a user writes, the kind of
  an opened notification, the settings snapshot, and the calls the view-model
  makes on its collaborators (the effect log).
 */
module Domain {

  /** Conventional optional value; `None` plays the role of Kotlin's `null`. */
  datatype Option<+T> = None | Some(value: T)

  /** A session the feedback service offers for feedback. Only its identity matters here. */
  datatype Session = Session(id: string)

  /** What the user entered in the feedback dialog; passed through unchanged to the service. */
  datatype Feedback = Feedback(content: string)

  /** The type of an opened notification: `Feedback`, or any other kind (reminders and the like). */
  datatype NotificationType = FeedbackNotification | Other(name: string)

  /**
    One immutable snapshot of the settings the gateway publishes. Only the two
    flags the application view-model reads are kept.
   */
  datatype Settings = Settings(isFeedbackEnabled: bool, useComposeForIos: bool)

  /**
    One call of the view-model into a collaborator, in the order it is made.
    `Next` records the value `FeedbackService.next()` returned on that call.
   */
  datatype Effect =
    | Next(result: Option<Session>)
    | Submit(session: Session, feedback: Feedback)
    | Skip(session: Session)
    | SetFeedbackEnabled(enabled: bool)

  /**
    Every `Submit` and `Skip` in the log is immediately followed by a `Next`:
    the service hears about the answer before the next session is asked for.
   */
  ghost predicate CausallyChained(log: seq<Effect>)
  {
    forall i :: 0 <= i < |log| && (log[i].Submit? || log[i].Skip?) ==>
      i + 1 < |log| && log[i + 1].Next?
  }

  /** Appending one chained log to another keeps it chained. */
  lemma ChainedAppend(a: seq<Effect>, b: seq<Effect>)
    requires CausallyChained(a)
    requires CausallyChained(b)
    ensures CausallyChained(a + b)
  {
  }
}
