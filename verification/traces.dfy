/**
  Properties of whole runs of the application view-model: what the effect log
  says about the presented dialog, the order of the calls it makes, and how
  closing a dialog with "close and disable" silences later appearances.
 */
module Traces {
  import opened Domain
  import opened ApplicationViewModel

  /**
    The dialog a log of calls leaves on screen, read from the log alone: the
    result of the latest `next()`, unless a later `setFeedbackEnabled` call
    (made only by "close and disable") cleared it.
   */
  function PresentedBy(log: seq<Effect>): Option<Session>
    decreases |log|
  {
    if |log| == 0 then None
    else
      match log[|log| - 1]
      case Next(result) => result
      case SetFeedbackEnabled(_) => None
      case _ => PresentedBy(log[..|log| - 1])
  }

  /** No event republishes settings with feedback switched back on. */
  predicate NoReEnable(evs: seq<Event>)
  {
    forall i :: 0 <= i < |evs| ==> !(evs[i].SettingsChanged? && evs[i].settings.isFeedbackEnabled)
  }

  /** No event publishes a new settings snapshot at all. */
  predicate NoSettingsChange(evs: seq<Event>)
  {
    forall i :: 0 <= i < |evs| ==> !evs[i].SettingsChanged?
  }

  /** A log ending in `next()` shows that call's result, whatever came before. */
  lemma PresentedByEndsInNext(log: seq<Effect>, tail: seq<Effect>, next: Option<Session>)
    requires |tail| > 0 && tail[|tail| - 1] == Next(next)
    ensures PresentedBy(log + tail) == next
  {
  }

  /** One step keeps the presented dialog equal to the one its log implies. */
  lemma {:induction false} ApplyKeepsPresentedBy(st: State, ev: Event, log: seq<Effect>)
    requires st.presented == PresentedBy(log)
    ensures Apply(st, ev).state.presented == PresentedBy(log + Apply(st, ev).effects)
  {
    var r := Apply(st, ev);
    match ev
    case Appear(next) =>
      if st.settings.isFeedbackEnabled {
        PresentedByEndsInNext(log, r.effects, next);
      } else {
        assert log + r.effects == log;
      }
    case NotificationOpened(id, kind, next) =>
      if kind == FeedbackNotification {
        PresentedByEndsInNext(log, r.effects, next);
      } else {
        assert log + r.effects == log;
      }
    case SubmitPressed(s, fb, next) =>
      PresentedByEndsInNext(log, r.effects, next);
    case SkipPressed(s, next) =>
      PresentedByEndsInNext(log, r.effects, next);
    case CloseAndDisablePressed =>
      assert (log + r.effects)[|log + r.effects| - 1] == SetFeedbackEnabled(false);
    case SettingsChanged(settings) =>
      assert log + r.effects == log;
  }

  /** A run keeps the presented dialog equal to the one its log implies. */
  lemma {:induction false} RunKeepsPresentedBy(st: State, evs: seq<Event>, log: seq<Effect>)
    requires st.presented == PresentedBy(log)
    ensures Run(st, evs).state.presented == PresentedBy(log + Run(st, evs).effects)
    decreases |evs|
  {
    if |evs| > 0 {
      var first := Apply(st, evs[0]);
      ApplyKeepsPresentedBy(st, evs[0], log);
      RunKeepsPresentedBy(first.state, evs[1..], log + first.effects);
      assert log + first.effects + Run(first.state, evs[1..]).effects
          == log + Run(st, evs).effects;
    } else {
      assert log + Run(st, evs).effects == log;
    }
  }

  /**
    From a freshly built view-model, after any events, the presented dialog is
    exactly the one the log of calls implies: nothing is shown that the latest
    `next()` did not return, and nothing after "close and disable".
   */
  lemma PresentedFollowsLog(settings: Settings, evs: seq<Event>)
    ensures Run(Init(settings), evs).state.presented == PresentedBy(Run(Init(settings), evs).effects)
  {
    RunKeepsPresentedBy(Init(settings), evs, []);
    assert [] + Run(Init(settings), evs).effects == Run(Init(settings), evs).effects;
  }

  /** Every step's calls are causally chained. */
  lemma ApplyIsChained(st: State, ev: Event)
    ensures CausallyChained(Apply(st, ev).effects)
  {
  }

  /**
    Over any run, each `submit` or `skip` call is immediately followed by the
    `next()` call that picks the following dialog.
   */
  lemma {:induction false} RunIsChained(st: State, evs: seq<Event>)
    ensures CausallyChained(Run(st, evs).effects)
    decreases |evs|
  {
    if |evs| > 0 {
      var first := Apply(st, evs[0]);
      ApplyIsChained(st, evs[0]);
      RunIsChained(first.state, evs[1..]);
      ChainedAppend(first.effects, Run(first.state, evs[1..]).effects);
    }
  }

  /** Without a republished "enabled" snapshot, a disabled flag stays disabled. */
  lemma {:induction false} FlagStaysOff(st: State, evs: seq<Event>)
    requires !st.settings.isFeedbackEnabled
    requires NoReEnable(evs)
    ensures !Run(st, evs).state.settings.isFeedbackEnabled
    decreases |evs|
  {
    if |evs| > 0 {
      assert !(evs[0].SettingsChanged? && evs[0].settings.isFeedbackEnabled);
      var first := Apply(st, evs[0]);
      assert NoReEnable(evs[1..]) by {
        forall i | 0 <= i < |evs[1..]|
          ensures !(evs[1..][i].SettingsChanged? && evs[1..][i].settings.isFeedbackEnabled)
        {
          assert evs[1..][i] == evs[i + 1];
        }
      }
      FlagStaysOff(first.state, evs[1..]);
    }
  }

  /**
    After "close and disable", whatever happens next (short of someone turning
    feedback back on in the settings), an appearance calls nothing and changes
    nothing, whatever `next()` would have returned.
   */
  lemma AppearAfterDisableIsNoOp(st: State, later: seq<Event>, next: Option<Session>)
    requires NoReEnable(later)
    ensures var mid := Run(CloseAndDisable(st).state, later).state;
      NoOp(mid, Apply(mid, Appear(next)))
  {
    FlagStaysOff(CloseAndDisable(st).state, later);
  }

  /**
    After "close and disable", an opened feedback notification still presents
    the session `next()` returns, and the flag stays off.
   */
  lemma NotificationAfterDisablePresents(st: State, later: seq<Event>, id: string, s: Session)
    requires NoReEnable(later)
    ensures var mid := Run(CloseAndDisable(st).state, later).state;
      var r := Apply(mid, NotificationOpened(id, FeedbackNotification, Some(s)));
      r.state.presented == Some(s) && !r.state.settings.isFeedbackEnabled
  {
    FlagStaysOff(CloseAndDisable(st).state, later);
  }

  /** "Close and disable" twice leaves the same state as once. */
  lemma CloseAndDisableIdempotent(st: State)
    ensures CloseAndDisable(CloseAndDisable(st).state).state == CloseAndDisable(st).state
  {
  }

  /** An appearance with feedback disabled leaves the state as it was, whatever `next()` holds. */
  lemma AppearDisabledIgnoresOracle(st: State, a: Option<Session>, b: Option<Session>)
    requires !st.settings.isFeedbackEnabled
    ensures Apply(st, Appear(a)) == Apply(st, Appear(b)) == Step(st, [])
  {
  }

  /**
    Only the settings gateway's snapshots change `useCompose`: the feedback
    workflow, including "close and disable", never touches it.
   */
  lemma {:induction false} UseComposeStable(st: State, evs: seq<Event>)
    requires NoSettingsChange(evs)
    ensures Run(st, evs).state.settings.useComposeForIos == st.settings.useComposeForIos
    decreases |evs|
  {
    if |evs| > 0 {
      assert !evs[0].SettingsChanged?;
      var first := Apply(st, evs[0]);
      assert first.state.settings.useComposeForIos == st.settings.useComposeForIos;
      assert NoSettingsChange(evs[1..]) by {
        forall i | 0 <= i < |evs[1..]| ensures !evs[1..][i].SettingsChanged? {
          assert evs[1..][i] == evs[i + 1];
        }
      }
      UseComposeStable(first.state, evs[1..]);
    }
  }

  /** An event that runs a dialog's submit or skip continuation. */
  predicate IsAnswer(ev: Event)
  {
    ev.SubmitPressed? || ev.SkipPressed?
  }

  /**
    Every answer event of a run started after the calls `log` names a session
    that an earlier `next()` call returned: the continuations that run belong
    to a dialog that was actually built from a `next()` result.
   */
  predicate AnswersOffered(st: State, evs: seq<Event>, log: seq<Effect>)
    decreases |evs|
  {
    || |evs| == 0
    || (&& (IsAnswer(evs[0]) ==> Next(Some(evs[0].session)) in log)
        && AnswersOffered(Apply(st, evs[0]).state, evs[1..], log + Apply(st, evs[0]).effects))
  }

  /** Every answer event of a run is given on the dialog on screen at that moment. */
  predicate AnswersOnScreen(st: State, evs: seq<Event>)
    decreases |evs|
  {
    || |evs| == 0
    || (&& (IsAnswer(evs[0]) ==> st.presented == Some(evs[0].session))
        && AnswersOnScreen(Apply(st, evs[0]).state, evs[1..]))
  }

  /** Every `submit` or `skip` call in a log is for a session an earlier `next()` returned. */
  ghost predicate AnswersFollowOffers(log: seq<Effect>)
  {
    forall i :: 0 <= i < |log| && (log[i].Submit? || log[i].Skip?) ==>
      Next(Some(log[i].session)) in log[..i]
  }

  /** A dialog the log leaves on screen was returned by a `next()` call of that log. */
  lemma {:induction false} PresentedWasOffered(log: seq<Effect>, s: Session)
    requires PresentedBy(log) == Some(s)
    ensures Next(Some(s)) in log
    decreases |log|
  {
    var last := log[|log| - 1];
    if !last.Next? {
      var prefix := log[..|log| - 1];
      PresentedWasOffered(prefix, s);
      var k :| 0 <= k < |prefix| && prefix[k] == Next(Some(s));
      assert log[k] == Next(Some(s));
    }
  }

  /** Appending calls whose answers were all offered in `log` keeps answers after their offers. */
  lemma AppendFollowsOffers(log: seq<Effect>, eff: seq<Effect>)
    requires AnswersFollowOffers(log)
    requires forall j :: 0 <= j < |eff| && (eff[j].Submit? || eff[j].Skip?) ==>
      Next(Some(eff[j].session)) in log
    ensures AnswersFollowOffers(log + eff)
  {
    var all := log + eff;
    forall i | 0 <= i < |all| && (all[i].Submit? || all[i].Skip?)
      ensures Next(Some(all[i].session)) in all[..i]
    {
      if i < |log| {
        assert all[i] == log[i];
        assert all[..i] == log[..i];
      } else {
        assert all[i] == eff[i - |log|];
        var k :| 0 <= k < |log| && log[k] == Next(Some(all[i].session));
        assert all[..i][k] == log[k];
      }
    }
  }

  /** A run whose answers were all offered keeps every answer after its offer. */
  lemma {:induction false} RunFollowsOffers(st: State, evs: seq<Event>, log: seq<Effect>)
    requires AnswersFollowOffers(log)
    requires AnswersOffered(st, evs, log)
    ensures AnswersFollowOffers(log + Run(st, evs).effects)
    decreases |evs|
  {
    if |evs| > 0 {
      var first := Apply(st, evs[0]);
      AppendFollowsOffers(log, first.effects);
      RunFollowsOffers(first.state, evs[1..], log + first.effects);
      assert log + first.effects + Run(first.state, evs[1..]).effects
          == log + Run(st, evs).effects;
    } else {
      assert log + Run(st, evs).effects == log;
    }
  }

  /**
    From a freshly built view-model, if every answer names a session some
    earlier `next()` returned, then in the log every `submit` or `skip` call
    comes after a `next()` call that returned its session.
   */
  lemma AnsweredOnlyOffered(settings: Settings, evs: seq<Event>)
    requires AnswersOffered(Init(settings), evs, [])
    ensures AnswersFollowOffers(Run(Init(settings), evs).effects)
  {
    RunFollowsOffers(Init(settings), evs, []);
    assert [] + Run(Init(settings), evs).effects == Run(Init(settings), evs).effects;
  }

  /** Answering only the dialog on screen is answering only sessions `next()` offered. */
  lemma {:induction false} OnScreenIsOffered(st: State, evs: seq<Event>, log: seq<Effect>)
    requires st.presented == PresentedBy(log)
    requires AnswersOnScreen(st, evs)
    ensures AnswersOffered(st, evs, log)
    decreases |evs|
  {
    if |evs| > 0 {
      if IsAnswer(evs[0]) {
        PresentedWasOffered(log, evs[0].session);
      }
      ApplyKeepsPresentedBy(st, evs[0], log);
      OnScreenIsOffered(Apply(st, evs[0]).state, evs[1..], log + Apply(st, evs[0]).effects);
    }
  }

  /**
    From a freshly built view-model, when the user only ever answers the dialog
    on screen, every `submit` or `skip` call comes after a `next()` call that
    returned its session.
   */
  lemma AnswersOnScreenFollowOffers(settings: Settings, evs: seq<Event>)
    requires AnswersOnScreen(Init(settings), evs)
    ensures AnswersFollowOffers(Run(Init(settings), evs).effects)
  {
    OnScreenIsOffered(Init(settings), evs, []);
    AnsweredOnlyOffered(settings, evs);
  }

  /**
    A run from a freshly built view-model whose first event is an answer,
    whatever follows it, meets neither run condition: that answer comes before
    any `next()` call and while no dialog is on screen.
   */
  lemma FirstAnswerNeedsOffer(settings: Settings, ev: Event, rest: seq<Event>)
    requires IsAnswer(ev)
    ensures !AnswersOffered(Init(settings), [ev] + rest, [])
    ensures !AnswersOnScreen(Init(settings), [ev] + rest)
  {
  }

  /** A non-empty run is its first step followed by the run of the rest. */
  lemma RunCons(st: State, ev: Event, evs: seq<Event>)
    ensures Run(st, [ev] + evs)
         == Step(Run(Apply(st, ev).state, evs).state, Apply(st, ev).effects + Run(Apply(st, ev).state, evs).effects)
  {
  }

  /** Running two event sequences one after the other is running their concatenation. */
  lemma {:induction false} RunAppend(st: State, a: seq<Event>, b: seq<Event>)
    ensures Run(st, a + b).state == Run(Run(st, a).state, b).state
    ensures Run(st, a + b).effects == Run(st, a).effects + Run(Run(st, a).state, b).effects
    decreases |a|
  {
    if |a| == 0 {
      assert a + b == b;
    } else {
      var first := Apply(st, a[0]);
      assert a + b == [a[0]] + (a[1..] + b);
      assert a == [a[0]] + a[1..];
      RunCons(st, a[0], a[1..] + b);
      RunCons(st, a[0], a[1..]);
      RunAppend(first.state, a[1..], b);
    }
  }
}
