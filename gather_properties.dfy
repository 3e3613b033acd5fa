/**
 * What the gather routine guarantees, proved about `Play` (and so, through
 * the contract of `GatherSequence.Run`, about the loop itself).
 */
module GatherProperties {
  import opened Wrappers
  import opened Channels
  import opened Gather
  import TypingDelay

  /** The text an action sends, if it is a `Say`. */
  function SaysOf(a: GatherAction): seq<string> {
    if a.Say? then [a.text] else []
  }

  /** The pause an action takes when nothing fails: a `Sleep`, or the typing delay before a `Say`. */
  function WaitOf(a: GatherAction): seq<nat> {
    match a
    case Sleep(millis) => [millis]
    case Say(text) => [TypingDelay.Delay(text)]
    case AddReaction(_) => []
  }

  /** Texts of the `Say` actions from position `from` on, in script order. */
  function SayTexts(actions: seq<GatherAction>, from: nat): seq<string>
    decreases |actions| - from
  {
    if from >= |actions| then []
    else if actions[from].Say? then [actions[from].text] + SayTexts(actions, from + 1)
    else SayTexts(actions, from + 1)
  }

  /** The texts from `from` on are those of the action at `from`, then the rest. */
  lemma SayTextsUnfold(actions: seq<GatherAction>, from: nat)
    requires from < |actions|
    ensures SayTexts(actions, from) == SaysOf(actions[from]) + SayTexts(actions, from + 1)
  {
    if !actions[from].Say? {
      assert [] + SayTexts(actions, from + 1) == SayTexts(actions, from + 1);
    }
  }

  /** The pauses a run from position `from` takes when nothing fails. */
  function Waits(actions: seq<GatherAction>, from: nat): seq<nat>
    decreases |actions| - from
  {
    if from >= |actions| then []
    else if actions[from].AddReaction? then Waits(actions, from + 1)
    else WaitOf(actions[from]) + Waits(actions, from + 1)
  }

  /** The pauses from `from` on are those of the action at `from`, then the rest. */
  lemma WaitsUnfold(actions: seq<GatherAction>, from: nat)
    requires from < |actions|
    ensures Waits(actions, from) == WaitOf(actions[from]) + Waits(actions, from + 1)
  {
    if actions[from].AddReaction? {
      assert [] + Waits(actions, from + 1) == Waits(actions, from + 1);
    }
  }

  /** Total of the script's own `Sleep` actions from position `from` on, typing delays excluded. */
  function ScriptedSleep(actions: seq<GatherAction>, from: nat): nat
    decreases |actions| - from
  {
    if from >= |actions| then 0
    else (if actions[from].Sleep? then actions[from].millis else 0) + ScriptedSleep(actions, from + 1)
  }

  /**
   * Number of react calls a run from position `from` makes when nothing
   * fails: an `AddReaction` calls `react` only once a message exists
   * (`hasMessage`, or a `Say` earlier in the run).
   */
  function ReactCalls(actions: seq<GatherAction>, from: nat, hasMessage: bool): nat
    decreases |actions| - from
  {
    if from >= |actions| then 0
    else
      var a := actions[from];
      (if a.AddReaction? && hasMessage then 1 else 0) + ReactCalls(actions, from + 1, hasMessage || a.Say?)
  }

  /** The react calls a run from position `from` makes before its `k`-th `Say` (counting from 0). */
  function ReactCallsBefore(actions: seq<GatherAction>, from: nat, k: nat, hasMessage: bool): nat
    decreases |actions| - from
  {
    if from >= |actions| then 0
    else
      var a := actions[from];
      if a.Say? && k == 0 then 0
      else
        (if a.AddReaction? && hasMessage then 1 else 0)
        + ReactCallsBefore(actions, from + 1, if a.Say? then k - 1 else k, hasMessage || a.Say?)
  }

  /**
   * The pauses a run from position `from` takes up to and including the
   * typing pause of its `k`-th `Say`, when every call before that send succeeds.
   */
  function PausesThrough(actions: seq<GatherAction>, from: nat, k: nat): seq<nat>
    decreases |actions| - from
  {
    if from >= |actions| then []
    else
      var a := actions[from];
      if a.Say? && k == 0 then WaitOf(a)
      else if a.AddReaction? then PausesThrough(actions, from + 1, k)
      else WaitOf(a) + PausesThrough(actions, from + 1, if a.Say? then k - 1 else k)
  }

  /** Before the `k`-th `Say`, the pauses are those of the action at `from`, then the rest. */
  lemma PausesThroughUnfold(actions: seq<GatherAction>, from: nat, k: nat)
    requires from < |actions| && !(actions[from].Say? && k == 0)
    ensures var k' := if actions[from].Say? then k - 1 else k;
            PausesThrough(actions, from, k) == WaitOf(actions[from]) + PausesThrough(actions, from + 1, k')
  {
    if actions[from].AddReaction? {
      assert [] + PausesThrough(actions, from + 1, k) == PausesThrough(actions, from + 1, k);
    }
  }

  /**
   * A run that stops at the failed send of its `k`-th `Say` has paused as
   * a run without failures would have, up to that point.
   */
  lemma {:induction false} PausesThroughPrefix(actions: seq<GatherAction>, from: nat, k: nat)
    requires k < |SayTexts(actions, from)|
    ensures PausesThrough(actions, from, k) <= Waits(actions, from)
    decreases |actions| - from
  {
    var a := actions[from];
    WaitsUnfold(actions, from);
    SayTextsUnfold(actions, from);
    if !(a.Say? && k == 0) {
      var k' := if a.Say? then k - 1 else k;
      PausesThroughUnfold(actions, from, k);
      PausesThroughPrefix(actions, from + 1, k');
    }
  }

  /** The react calls made before the `k`-th `Say` are among those of the whole run. */
  lemma {:induction false} ReactCallsBeforeBound(actions: seq<GatherAction>, from: nat, k: nat, hasMessage: bool)
    ensures ReactCallsBefore(actions, from, k, hasMessage) <= ReactCalls(actions, from, hasMessage)
    decreases |actions| - from
  {
    if from < |actions| {
      var a := actions[from];
      if !(a.Say? && k == 0) {
        ReactCallsBeforeBound(actions, from + 1, if a.Say? then k - 1 else k, hasMessage || a.Say?);
      }
    }
  }

  /** Total typing delay before sending `texts`. */
  function TypingTime(texts: seq<string>): nat {
    if texts == [] then 0 else TypingDelay.Delay(texts[0]) + TypingTime(texts[1..])
  }

  /**
   * The pauses of a run in which nothing fails add up to the script's own
   * sleeps plus the typing delay of every text it sends.
   */
  lemma {:induction false} WaitsTotal(actions: seq<GatherAction>, from: nat)
    ensures Sum(Waits(actions, from)) == ScriptedSleep(actions, from) + TypingTime(SayTexts(actions, from))
    decreases |actions| - from
  {
    if from < |actions| {
      var a := actions[from];
      var rest := SayTexts(actions, from + 1);
      SayTextsUnfold(actions, from);
      WaitsUnfold(actions, from);
      WaitsTotal(actions, from + 1);
      SumAppend(WaitOf(a), Waits(actions, from + 1));
      assert Sum(WaitOf(a)) == (if a.Sleep? then a.millis else 0) + (if a.Say? then TypingDelay.Delay(a.text) else 0);
      if a.Say? {
        assert (SaysOf(a) + rest)[1..] == rest;
        assert TypingTime(SaysOf(a) + rest) == TypingDelay.Delay(a.text) + TypingTime(rest);
      } else {
        assert SaysOf(a) + rest == rest;
      }
    }
  }

  /** Calls numbered `from` up to `from + n` (exclusive) all succeed. */
  predicate NoneFail(fails: set<nat>, from: nat, n: nat) {
    forall j :: from <= j < from + n ==> j !in fails
  }

  /** If the next `c + n` calls succeed, the first `c` of them do, and so do the `n` after them. */
  lemma NoneFailShift(fails: set<nat>, from: nat, c: nat, n: nat)
    requires NoneFail(fails, from, c + n)
    ensures NoneFail(fails, from + c, n)
    ensures c > 0 ==> from !in fails
  {
  }

  /** Every reaction in the log is on the newest message posted before it. */
  predicate ReactsOnLatest(log: seq<Effect>) {
    forall i :: 0 <= i < |log| && log[i].Reacted? ==> log[i].message + 1 == |Messages(log[..i])|
  }

  /** `last_message`, when set, is the newest message of the channel. */
  predicate TracksLatest(s: State, last: Option<nat>) {
    last.Some? ==> last.value + 1 == s.posted
  }

  // ---------------------------------------------------------------------
  // say_with_typing

  /**
   * The effects of `say_with_typing` in order: the typing indicator if it
   * starts, the pause, the message if the send succeeds, and the stop only
   * when both the start and the send succeeded. The result depends on the
   * send alone, never on the typing indicator.
   */
  lemma SayWithTypingEffects(o: Outcomes, s: State, delay: nat, content: string)
    ensures var (s', r) := SayWithTypingStep(o, s, delay, content);
            var typing := s.typings !in o.typingFails;
            && (r.Ok? <==> s.sends !in o.sendFails)
            && (r.Err? ==> r.error == SEND_ERROR)
            && (r.Ok? ==> r.value == s.posted)
            && s'.log == s.log + (if typing then [TypingStarted] else []) + [Slept(delay)]
                         + (if r.Ok? then [Posted(content)] else [])
                         + (if typing && r.Ok? then [TypingStopped] else [])
            && s'.posted == s.posted + (if r.Ok? then 1 else 0)
            && s'.sends == s.sends + 1 && s'.reacts == s.reacts && s'.typings == s.typings + 1
  {
    var typing := s.typings !in o.typingFails;
    if !typing {
      assert s.log + [] == s.log;
    }
    if s.sends in o.sendFails {
      var l := s.log + (if typing then [TypingStarted] else []) + [Slept(delay)];
      assert l + [] + [] == l;
    } else if !typing {
      var l := s.log + [] + [Slept(delay)] + [Posted(content)];
      assert l + [] == l;
    }
  }

  /** What `say_with_typing` does to the messages, reactions, pauses and visible log. */
  lemma SayWithTypingProjections(o: Outcomes, s: State, delay: nat, content: string)
    ensures var (s', r) := SayWithTypingStep(o, s, delay, content);
            && Messages(s'.log) == Messages(s.log) + (if r.Ok? then [content] else [])
            && Reactions(s'.log) == Reactions(s.log)
            && Pauses(s'.log) == Pauses(s.log) + [delay]
            && Visible(s'.log) == Visible(s.log) + [Slept(delay)] + (if r.Ok? then [Posted(content)] else [])
  {
    var (s1, typing) := StartTypingStep(o, s);
    var s2 := SleepStep(s1, delay);
    var (s3, message) := SendStep(o, s2, content);
    if typing {
      IndicatorInvisible(s.log, TypingStarted);
    }
    ProjectionsSnoc(s1.log, Slept(delay));
    if message.Some? {
      ProjectionsSnoc(s2.log, Posted(content));
      if typing {
        IndicatorInvisible(s3.log, TypingStopped);
      }
    }
  }

  /**
   * A run from `from` is the run of the actions before `mid`, continued,
   * unless it failed, from `mid`.
   */
  lemma {:induction false} PlaySplit(o: Outcomes, s: State, last: Option<nat>, actions: seq<GatherAction>, from: nat, mid: nat)
    requires from <= mid <= |actions|
    ensures Play(o, s, last, actions, from) == Continue(o, Play(o, s, last, actions[..mid], from), actions, mid)
    decreases mid - from
  {
    if from < mid {
      assert actions[..mid][from] == actions[from];
      var q := ActionStep(o, s, last, actions[from]);
      if q.outcome.Ok? {
        PlaySplit(o, q.state, q.last, actions, from + 1, mid);
      }
    }
  }

  // ---------------------------------------------------------------------
  // Runs in which nothing fails

  /** One action whose calls all succeed. */
  lemma StepSucceeds(o: Outcomes, s: State, last: Option<nat>, a: GatherAction)
    requires a.Say? ==> s.sends !in o.sendFails
    requires a.AddReaction? && last.Some? ==> s.reacts !in o.reactFails
    ensures var q := ActionStep(o, s, last, a);
            && q.outcome == Ok(())
            && Messages(q.state.log) == Messages(s.log) + SaysOf(a)
            && Pauses(q.state.log) == Pauses(s.log) + WaitOf(a)
            && q.state.sends == s.sends + |SaysOf(a)|
            && q.state.posted == s.posted + |SaysOf(a)|
            && q.state.reacts == s.reacts + (if a.AddReaction? && last.Some? then 1 else 0)
            && Reactions(q.state.log)
               == Reactions(s.log) + (if a.AddReaction? && last.Some? then [(last.value, a.emoji)] else [])
            && q.last == (if a.Say? then Some(s.posted) else last)
            && (q.last.Some? <==> last.Some? || a.Say?)
  {
    match a {
      case Sleep(millis) =>
        ProjectionsSnoc(s.log, Slept(millis));
      case Say(text) =>
        SayWithTypingEffects(o, s, TypingDelay.Delay(text), text);
        SayWithTypingProjections(o, s, TypingDelay.Delay(text), text);
      case AddReaction(emoji) =>
        if last.Some? {
          ProjectionsSnoc(s.log, Reacted(last.value, emoji));
        }
    }
  }

  /**
   * When every send and every reaction of a run succeeds, the run succeeds,
   * the channel receives exactly the `Say` texts in script order, the pauses
   * are exactly `Waits`, and `last_message` ends on the newest message.
   */
  lemma {:induction false} PlayAllSucceed(o: Outcomes, s: State, last: Option<nat>, actions: seq<GatherAction>, from: nat)
    requires NoneFail(o.sendFails, s.sends, |SayTexts(actions, from)|)
    requires NoneFail(o.reactFails, s.reacts, ReactCalls(actions, from, last.Some?))
    ensures var p := Play(o, s, last, actions, from);
            && p.outcome == Ok(())
            && Messages(p.state.log) == Messages(s.log) + SayTexts(actions, from)
            && Pauses(p.state.log) == Pauses(s.log) + Waits(actions, from)
            && p.state.sends == s.sends + |SayTexts(actions, from)|
            && p.state.posted == s.posted + |SayTexts(actions, from)|
            && p.state.reacts == s.reacts + ReactCalls(actions, from, last.Some?)
            && (ReactCalls(actions, from, last.Some?) == 0 ==> Reactions(p.state.log) == Reactions(s.log))
            && (if SayTexts(actions, from) == [] then p.last == last else TracksLatest(p.state, p.last) && p.last.Some?)
    decreases |actions| - from
  {
    if from < |actions| {
      var a := actions[from];
      var q := ActionStep(o, s, last, a);
      SayTextsUnfold(actions, from);
      WaitsUnfold(actions, from);
      NoneFailShift(o.sendFails, s.sends, |SaysOf(a)|, |SayTexts(actions, from + 1)|);
      NoneFailShift(o.reactFails, s.reacts, if a.AddReaction? && last.Some? then 1 else 0,
                    ReactCalls(actions, from + 1, last.Some? || a.Say?));
      StepSucceeds(o, s, last, a);
      PlayAllSucceed(o, q.state, q.last, actions, from + 1);
      AppendAssoc(Messages(s.log), SaysOf(a), SayTexts(actions, from + 1));
      AppendAssoc(Pauses(s.log), WaitOf(a), Waits(actions, from + 1));
    }
  }

  // ---------------------------------------------------------------------
  // Failures

  /** A `Say` whose send fails ends the step with the send error and posts nothing. */
  lemma StepSendFails(o: Outcomes, s: State, last: Option<nat>, a: GatherAction)
    requires a.Say? && s.sends in o.sendFails
    ensures var q := ActionStep(o, s, last, a);
            && q.outcome == Err(SEND_ERROR)
            && Messages(q.state.log) == Messages(s.log)
            && Pauses(q.state.log) == Pauses(s.log) + WaitOf(a)
            && Reactions(q.state.log) == Reactions(s.log)
            && q.state.sends == s.sends + 1
            && q.state.reacts == s.reacts
  {
    SayWithTypingEffects(o, s, TypingDelay.Delay(a.text), a.text);
    SayWithTypingProjections(o, s, TypingDelay.Delay(a.text), a.text);
  }

  /** The first `k` texts from `from` are those of the action at `from` and then the rest. */
  lemma SayTextsPrefix(actions: seq<GatherAction>, from: nat, k: nat)
    requires from < |actions| && k <= |SayTexts(actions, from)|
    requires actions[from].Say? ==> k > 0
    ensures var k' := if actions[from].Say? then k - 1 else k;
            SayTexts(actions, from)[..k] == SaysOf(actions[from]) + SayTexts(actions, from + 1)[..k']
  {
    SayTextsUnfold(actions, from);
  }

  /**
   * If the k-th send of a run fails and every send and react call before it
   * succeeded, the run fails with the send error. The channel received
   * exactly the first k `Say` texts. The run paused up to and including the
   * failed `Say`'s typing, and made the react calls scripted before it and
   * no other call.
   */
  lemma {:induction false} PlaySendFails(o: Outcomes, s: State, last: Option<nat>, actions: seq<GatherAction>, from: nat, k: nat)
    requires k < |SayTexts(actions, from)|
    requires NoneFail(o.sendFails, s.sends, k) && s.sends + k in o.sendFails
    requires NoneFail(o.reactFails, s.reacts, ReactCallsBefore(actions, from, k, last.Some?))
    ensures var p := Play(o, s, last, actions, from);
            var n := ReactCallsBefore(actions, from, k, last.Some?);
            && p.outcome == Err(SEND_ERROR)
            && Messages(p.state.log) == Messages(s.log) + SayTexts(actions, from)[..k]
            && Pauses(p.state.log) == Pauses(s.log) + PausesThrough(actions, from, k)
            && p.state.sends == s.sends + k + 1
            && p.state.reacts == s.reacts + n
            && (n == 0 ==> Reactions(p.state.log) == Reactions(s.log))
    decreases |actions| - from
  {
    var a := actions[from];
    if a.Say? && k == 0 {
      StepSendFails(o, s, last, a);
    } else {
      var q := ActionStep(o, s, last, a);
      var k' := if a.Say? then k - 1 else k;
      NoneFailShift(o.sendFails, s.sends, |SaysOf(a)|, k');
      NoneFailShift(o.reactFails, s.reacts, if a.AddReaction? && last.Some? then 1 else 0,
                    ReactCallsBefore(actions, from + 1, k', last.Some? || a.Say?));
      StepSucceeds(o, s, last, a);
      PlaySendFails(o, q.state, q.last, actions, from + 1, k');
      SayTextsPrefix(actions, from, k);
      PausesThroughUnfold(actions, from, k);
      AppendAssoc(Messages(s.log), SaysOf(a), SayTexts(actions, from + 1)[..k']);
      AppendAssoc(Pauses(s.log), WaitOf(a), PausesThrough(actions, from + 1, k'));
    }
  }

  /** Before any message exists, `AddReaction` does nothing and cannot fail. */
  lemma {:induction false} NoReactionWithoutMessage(o: Outcomes, s: State, actions: seq<GatherAction>, from: nat)
    requires SayTexts(actions, from) == []
    ensures var p := Play(o, s, None, actions, from);
            && p.outcome == Ok(())
            && p.last == None
            && p.state.reacts == s.reacts && p.state.sends == s.sends
            && Messages(p.state.log) == Messages(s.log)
            && Reactions(p.state.log) == Reactions(s.log)
    decreases |actions| - from
  {
    if from < |actions| {
      var a := actions[from];
      assert !a.Say?;
      if a.Sleep? {
        ProjectionsSnoc(s.log, Slept(a.millis));
      }
      NoReactionWithoutMessage(o, ActionStep(o, s, None, a).state, actions, from + 1);
    }
  }

  // ---------------------------------------------------------------------
  // Reactions target the newest message

  /** Appending effects that are not reactions keeps every reaction on its message. */
  lemma ReactsOnLatestExtend(log: seq<Effect>, more: seq<Effect>)
    requires ReactsOnLatest(log)
    requires forall i :: 0 <= i < |more| ==> !more[i].Reacted?
    ensures ReactsOnLatest(log + more)
  {
    var log' := log + more;
    forall i | 0 <= i < |log'| && log'[i].Reacted?
      ensures log'[i].message + 1 == |Messages(log'[..i])|
    {
      assert i < |log|;
      assert log'[..i] == log[..i];
    }
  }

  /** `say_with_typing` adds no reaction. */
  lemma SayWithTypingReactsOnLatest(o: Outcomes, s: State, delay: nat, content: string)
    requires ReactsOnLatest(s.log)
    ensures ReactsOnLatest(SayWithTypingStep(o, s, delay, content).0.log)
  {
    var (s1, typing) := StartTypingStep(o, s);
    var s2 := SleepStep(s1, delay);
    var (s3, message) := SendStep(o, s2, content);
    ReactsOnLatestExtend(s.log, [TypingStarted]);
    ReactsOnLatestExtend(s1.log, [Slept(delay)]);
    ReactsOnLatestExtend(s2.log, [Posted(content)]);
    ReactsOnLatestExtend(s3.log, [TypingStopped]);
  }

  /** A reaction on the newest message keeps every reaction on its message. */
  lemma ReactsOnLatestReact(log: seq<Effect>, message: nat, emoji: char)
    requires ReactsOnLatest(log)
    requires message + 1 == |Messages(log)|
    ensures ReactsOnLatest(log + [Reacted(message, emoji)])
  {
    var log' := log + [Reacted(message, emoji)];
    forall i | 0 <= i < |log'| && log'[i].Reacted?
      ensures log'[i].message + 1 == |Messages(log'[..i])|
    {
      if i < |log| {
        assert log'[..i] == log[..i];
      } else {
        assert log'[..i] == log;
      }
    }
  }

  /** A `Say` step keeps reactions on their messages and `last_message` on the newest message. */
  lemma SayStepReactsOnLatest(o: Outcomes, s: State, last: Option<nat>, text: string)
    requires Consistent(s) && ReactsOnLatest(s.log) && TracksLatest(s, last)
    ensures var q := ActionStep(o, s, last, Say(text));
            Consistent(q.state) && ReactsOnLatest(q.state.log) && TracksLatest(q.state, q.last)
  {
    var delay := TypingDelay.Delay(text);
    SayWithTypingEffects(o, s, delay, text);
    SayWithTypingProjections(o, s, delay, text);
    SayWithTypingReactsOnLatest(o, s, delay, text);
  }

  /** A `Sleep` step only records the pause. */
  lemma SleepStepReactsOnLatest(s: State, millis: nat)
    requires Consistent(s) && ReactsOnLatest(s.log)
    ensures Consistent(SleepStep(s, millis)) && ReactsOnLatest(SleepStep(s, millis).log)
  {
    ProjectionsSnoc(s.log, Slept(millis));
    ReactsOnLatestExtend(s.log, [Slept(millis)]);
  }

  /** An `AddReaction` step reacts, if at all, to `last_message`, the newest message. */
  lemma ReactionStepReactsOnLatest(o: Outcomes, s: State, last: Option<nat>, emoji: char)
    requires Consistent(s) && ReactsOnLatest(s.log) && TracksLatest(s, last)
    ensures var q := ActionStep(o, s, last, AddReaction(emoji));
            Consistent(q.state) && ReactsOnLatest(q.state.log) && TracksLatest(q.state, q.last)
  {
    if last.Some? && s.reacts !in o.reactFails {
      ProjectionsSnoc(s.log, Reacted(last.value, emoji));
      ReactsOnLatestReact(s.log, last.value, emoji);
    }
  }

  /** One action keeps reactions on the newest message and `last_message` on the newest message. */
  lemma StepReactsOnLatest(o: Outcomes, s: State, last: Option<nat>, a: GatherAction)
    requires Consistent(s) && ReactsOnLatest(s.log) && TracksLatest(s, last)
    ensures var q := ActionStep(o, s, last, a);
            Consistent(q.state) && ReactsOnLatest(q.state.log) && TracksLatest(q.state, q.last)
  {
    match a {
      case Sleep(millis) => SleepStepReactsOnLatest(s, millis);
      case Say(text) => SayStepReactsOnLatest(o, s, last, text);
      case AddReaction(emoji) => ReactionStepReactsOnLatest(o, s, last, emoji);
    }
  }

  /**
   * `AddReaction` always reacts to `last_message`, which is always the newest
   * message: a run that starts from such a channel leaves every reaction on
   * the message posted just before it.
   */
  lemma {:induction false} PlayReactsOnLatest(o: Outcomes, s: State, last: Option<nat>, actions: seq<GatherAction>, from: nat)
    requires Consistent(s) && ReactsOnLatest(s.log) && TracksLatest(s, last)
    ensures var p := Play(o, s, last, actions, from);
            Consistent(p.state) && ReactsOnLatest(p.state.log) && TracksLatest(p.state, p.last)
    decreases |actions| - from
  {
    if from < |actions| {
      var q := ActionStep(o, s, last, actions[from]);
      StepReactsOnLatest(o, s, last, actions[from]);
      if q.outcome.Ok? {
        PlayReactsOnLatest(o, q.state, q.last, actions, from + 1);
      }
    }
  }

  // ---------------------------------------------------------------------
  // The typing indicator is cosmetic

  /** Two channel states that differ only in the typing indicator. */
  predicate SameButTyping(s: State, t: State) {
    s.posted == t.posted && s.sends == t.sends && s.reacts == t.reacts && Visible(s.log) == Visible(t.log)
  }

  /**
   * `say_with_typing` started from two states that differ only in the typing
   * indicator, with different typing outcomes, returns the same result and
   * ends in states that still differ only in the typing indicator.
   */
  lemma SayIgnoresTyping(o: Outcomes, typingFails: set<nat>, s: State, t: State, delay: nat, content: string)
    requires SameButTyping(s, t)
    ensures var (s', r) := SayWithTypingStep(o, s, delay, content);
            var (t', r') := SayWithTypingStep(o.(typingFails := typingFails), t, delay, content);
            r == r' && SameButTyping(s', t')
  {
    var o' := o.(typingFails := typingFails);
    SayWithTypingEffects(o, s, delay, content);
    SayWithTypingEffects(o', t, delay, content);
    SayWithTypingProjections(o, s, delay, content);
    SayWithTypingProjections(o', t, delay, content);
  }

  /** One action, played with and without typing indicators, ends in states that differ only in them. */
  lemma StepIgnoresTyping(o: Outcomes, typingFails: set<nat>, s: State, t: State, last: Option<nat>, a: GatherAction)
    requires SameButTyping(s, t)
    ensures var q := ActionStep(o, s, last, a);
            var q' := ActionStep(o.(typingFails := typingFails), t, last, a);
            q.outcome == q'.outcome && q.last == q'.last && SameButTyping(q.state, q'.state)
  {
    var o' := o.(typingFails := typingFails);
    match a {
      case Sleep(millis) =>
        ProjectionsSnoc(s.log, Slept(millis));
        ProjectionsSnoc(t.log, Slept(millis));
      case Say(text) =>
        SayIgnoresTyping(o, typingFails, s, t, TypingDelay.Delay(text), text);
      case AddReaction(emoji) =>
        if last.Some? {
          ProjectionsSnoc(s.log, Reacted(last.value, emoji));
          ProjectionsSnoc(t.log, Reacted(last.value, emoji));
        }
    }
  }

  /**
   * Whether typing indicators start or not changes nothing but the
   * indicator itself: the outcome, `last_message`, and every message,
   * reaction and pause are the same.
   */
  lemma {:induction false} PlayIgnoresTyping(o: Outcomes, typingFails: set<nat>, s: State, t: State, last: Option<nat>, actions: seq<GatherAction>, from: nat)
    requires SameButTyping(s, t)
    ensures var p := Play(o, s, last, actions, from);
            var p' := Play(o.(typingFails := typingFails), t, last, actions, from);
            p.outcome == p'.outcome && p.last == p'.last && SameButTyping(p.state, p'.state)
    decreases |actions| - from
  {
    var o' := o.(typingFails := typingFails);
    if from < |actions| {
      var q, q' := ActionStep(o, s, last, actions[from]), ActionStep(o', t, last, actions[from]);
      StepIgnoresTyping(o, typingFails, s, t, last, actions[from]);
      if q.outcome.Ok? {
        PlayIgnoresTyping(o, typingFails, q.state, q'.state, q.last, actions, from + 1);
      }
    }
  }
}
