/**
  The feedback workflow run against one particular feedback service: a queue
  of pending sessions whose head is what `next()` returns, and from which a
  submitted or skipped session is removed. The service itself is not part of
  this model, so this queue behaviour is an ASSUMPTION made only here; none
  of the properties in the other modules depend on it.
 */
module FeedbackQueue {
  import opened Domain
  import opened ApplicationViewModel
  import Traces

  /** What the user does with a presented dialog other than closing it. */
  datatype Answer = Answered(feedback: Feedback) | Skipped

  /** `next()` of the assumed queue: its head, or null when it is empty. */
  function Head(q: seq<Session>): (r: Option<Session>)
    ensures r.None? <==> |q| == 0
    ensures r.Some? ==> r.value == q[0]
  {
    if |q| == 0 then None else Some(q[0])
  }

  /** The event for answering the dialog of `s`, after which the queue's head is `next`. */
  function AnswerEvent(s: Session, a: Answer, next: Option<Session>): Event
  {
    match a
    case Answered(fb) => SubmitPressed(s, fb, next)
    case Skipped => SkipPressed(s, next)
  }

  /** The call recording answer `a` for session `s`. */
  function AnswerEffect(s: Session, a: Answer): Effect
  {
    match a
    case Answered(fb) => Submit(s, fb)
    case Skipped => Skip(s)
  }

  /** Answering every queued session in turn, each on the dialog the previous answer brought up. */
  function AnswerAll(q: seq<Session>, answers: seq<Answer>): seq<Event>
    requires |answers| == |q|
    decreases |q|
  {
    if |q| == 0 then []
    else [AnswerEvent(q[0], answers[0], Head(q[1..]))] + AnswerAll(q[1..], answers[1..])
  }

  /** The sessions that a log records an answer for, in order. */
  function AnsweredSessions(log: seq<Effect>): seq<Session>
    decreases |log|
  {
    if |log| == 0 then []
    else
      match log[0]
      case Submit(s, _) => [s] + AnsweredSessions(log[1..])
      case Skip(s) => [s] + AnsweredSessions(log[1..])
      case _ => AnsweredSessions(log[1..])
  }

  /** The results of the `next()` calls a log records, in order. */
  function NextResults(log: seq<Effect>): seq<Option<Session>>
    decreases |log|
  {
    if |log| == 0 then []
    else
      match log[0]
      case Next(r) => [r] + NextResults(log[1..])
      case _ => NextResults(log[1..])
  }

  /** Both projections distribute over concatenation. */
  lemma {:induction false} ProjectionsAppend(a: seq<Effect>, b: seq<Effect>)
    ensures AnsweredSessions(a + b) == AnsweredSessions(a) + AnsweredSessions(b)
    ensures NextResults(a + b) == NextResults(a) + NextResults(b)
    decreases |a|
  {
    if |a| == 0 {
      assert a + b == b;
    } else {
      assert (a + b)[0] == a[0];
      assert (a + b)[1..] == a[1..] + b;
      ProjectionsAppend(a[1..], b);
    }
  }

  /**
    Answering the dialogs of a whole queue, starting with its head on screen:
    each answer is given on the dialog on screen at that moment, every session
    is answered exactly once and in queue order, each answer is
    followed by a `next()` returning the following session (null after the
    last), the dialog is gone at the end, and the settings are untouched.
   */
  lemma {:induction false} DrainQueue(st: State, q: seq<Session>, answers: seq<Answer>)
    requires |answers| == |q|
    requires st.presented == Head(q)
    ensures Traces.AnswersOnScreen(st, AnswerAll(q, answers))
    ensures Run(st, AnswerAll(q, answers)).state == st.(presented := None)
    ensures AnsweredSessions(Run(st, AnswerAll(q, answers)).effects) == q
    ensures |NextResults(Run(st, AnswerAll(q, answers)).effects)| == |q|
    ensures |q| > 0 ==> NextResults(Run(st, AnswerAll(q, answers)).effects)[|q| - 1] == None
    ensures forall i :: 0 <= i < |q| - 1 ==>
      NextResults(Run(st, AnswerAll(q, answers)).effects)[i] == Some(q[i + 1])
    decreases |q|
  {
    var evs := AnswerAll(q, answers);
    if |q| > 0 {
      var first := Apply(st, evs[0]);
      assert evs[1..] == AnswerAll(q[1..], answers[1..]);
      assert first.effects == [AnswerEffect(q[0], answers[0]), Next(Head(q[1..]))] by {
        match answers[0]
        case Answered(fb) =>
        case Skipped =>
      }
      AnswerAllOnScreen(st, q, answers);
      DrainQueue(first.state, q[1..], answers[1..]);
      var rest := Run(first.state, evs[1..]);
      ProjectionsAppend(first.effects, rest.effects);
      assert AnsweredSessions(first.effects) == [q[0]];
      assert NextResults(first.effects) == [Head(q[1..])];
      assert q == [q[0]] + q[1..];
    }
  }

  /** Each event of `AnswerAll` answers the dialog on screen when it happens. */
  lemma {:induction false} AnswerAllOnScreen(st: State, q: seq<Session>, answers: seq<Answer>)
    requires |answers| == |q|
    requires st.presented == Head(q)
    ensures Traces.AnswersOnScreen(st, AnswerAll(q, answers))
    decreases |q|
  {
    var evs := AnswerAll(q, answers);
    if |q| > 0 {
      assert evs[1..] == AnswerAll(q[1..], answers[1..]);
      var first := Apply(st, evs[0]);
      assert Traces.IsAnswer(evs[0]) && evs[0].session == q[0] && first.state.presented == Head(q[1..]) by {
        match answers[0]
        case Answered(fb) =>
        case Skipped =>
      }
      AnswerAllOnScreen(first.state, q[1..], answers[1..]);
    }
  }

  /**
    With feedback enabled, an appearance followed by answering every dialog
    goes through the whole queue: the first `next()` returns its head and the
    user ends with no dialog.
   */
  lemma AppearThenDrain(st: State, q: seq<Session>, answers: seq<Answer>)
    requires st.settings.isFeedbackEnabled
    requires |answers| == |q|
    ensures var r := Run(st, [Appear(Head(q))] + AnswerAll(q, answers));
      && r.state == st.(presented := None)
      && r.effects[0] == Next(Head(q))
      && AnsweredSessions(r.effects) == q
  {
    var shown := Apply(st, Appear(Head(q)));
    Traces.RunAppend(st, [Appear(Head(q))], AnswerAll(q, answers));
    assert Run(st, [Appear(Head(q))]).effects == [Next(Head(q))];
    DrainQueue(shown.state, q, answers);
    ProjectionsAppend([Next(Head(q))], Run(shown.state, AnswerAll(q, answers)).effects);
  }

  /**
    The chained-dialog scenario: feedback enabled, pending sessions S1 and S2.
    Appearing shows S1; submitting it records the feedback before asking for
    S2, which is shown; skipping S2 records the skip and leaves no dialog.
   */
  lemma SubmitThenSkipScenario(st: State, s1: Session, s2: Session, fb: Feedback)
    requires st.settings.isFeedbackEnabled
    ensures var shown := Apply(st, Appear(Some(s1)));
      var submitted := Apply(shown.state, SubmitPressed(s1, fb, Some(s2)));
      var skipped := Apply(submitted.state, SkipPressed(s2, None));
      && shown.state.presented == Some(s1)
      && submitted.state.presented == Some(s2)
      && submitted.effects == [Submit(s1, fb), Next(Some(s2))]
      && skipped.state.presented.None?
      && skipped.effects == [Skip(s2), Next(None)]
  {
  }

  /**
    The opened-notification scenario: with feedback disabled, opening a
    feedback notification for S3 (which `next()` returns) shows S3.
   */
  lemma NotificationWhileDisabledScenario(st: State, s3: Session)
    requires !st.settings.isFeedbackEnabled
    ensures Apply(st, NotificationOpened(s3.id, FeedbackNotification, Some(s3))).state.presented == Some(s3)
  {
  }
}
