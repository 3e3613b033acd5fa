/**
 * The Discord side of the gather sequence, reduced to what the bot can
 * observe: a guild channel that records, in order, every effect the bot
 * has on it (and every pause it takes), and an oracle that decides which
 * calls fail. Messages are identified by their position among the
 * channel's posted messages, which is what a serenity `Message` handle
 * stands for here.
 */
module Channels {
  import opened Wrappers

  /** One effect the bot has on the world. */
  datatype Effect =
    | Slept(millis: nat)
    | TypingStarted
    | TypingStopped
    | Posted(text: string)
    | Reacted(message: nat, emoji: char)

  /**
   * Which calls into Discord fail. The n-th call of a kind (counting from 0)
   * fails exactly when n belongs to the corresponding set.
   */
  datatype Outcomes = Outcomes(sendFails: set<nat>, reactFails: set<nat>, typingFails: set<nat>)

  /**
   * Everything the bot has done so far, how many messages it has posted
   * (the index the next message gets) and how many calls of each kind it
   * has made.
   */
  datatype State = State(log: seq<Effect>, posted: nat, sends: nat, reacts: nat, typings: nat)

  const Fresh: State := State([], 0, 0, 0, 0)

  /** The parts `pick` selects from each effect of `log`, in order. */
  function Project<T>(log: seq<Effect>, pick: Effect -> seq<T>): seq<T> {
    if log == [] then [] else Project(log[..|log| - 1], pick) + pick(log[|log| - 1])
  }

  function PostedText(e: Effect): seq<string> {
    if e.Posted? then [e.text] else []
  }

  function ReactionOf(e: Effect): seq<(nat, char)> {
    if e.Reacted? then [(e.message, e.emoji)] else []
  }

  function PauseOf(e: Effect): seq<nat> {
    if e.Slept? then [e.millis] else []
  }

  function NotTyping(e: Effect): seq<Effect> {
    if e.TypingStarted? || e.TypingStopped? then [] else [e]
  }

  /** Texts of the messages in the channel; message `i` is `Messages(log)[i]`. */
  function Messages(log: seq<Effect>): seq<string> { Project(log, PostedText) }

  /** Reactions as (message index, emoji) pairs, in the order they were added. */
  function Reactions(log: seq<Effect>): seq<(nat, char)> { Project(log, ReactionOf) }

  /** Durations of the pauses taken, in order. */
  function Pauses(log: seq<Effect>): seq<nat> { Project(log, PauseOf) }

  /** The log without the typing indicator, which is purely cosmetic. */
  function Visible(log: seq<Effect>): seq<Effect> { Project(log, NotTyping) }

  function Sum(xs: seq<nat>): nat {
    if xs == [] then 0 else Sum(xs[..|xs| - 1]) + xs[|xs| - 1]
  }

  lemma {:induction false} ProjectAppend<T>(a: seq<Effect>, b: seq<Effect>, pick: Effect -> seq<T>)
    ensures Project(a + b, pick) == Project(a, pick) + Project(b, pick)
  {
    if b == [] {
      assert a + b == a;
    } else {
      var c := b[..|b| - 1];
      assert (a + b)[..|a + b| - 1] == a + c;
      assert (a + b)[|a + b| - 1] == b[|b| - 1];
      ProjectAppend(a, c, pick);
    }
  }

  /** The projections of a log extended by one effect. */
  lemma ProjectionsSnoc(log: seq<Effect>, e: Effect)
    ensures Messages(log + [e]) == Messages(log) + PostedText(e)
    ensures Reactions(log + [e]) == Reactions(log) + ReactionOf(e)
    ensures Pauses(log + [e]) == Pauses(log) + PauseOf(e)
    ensures Visible(log + [e]) == Visible(log) + NotTyping(e)
  {
    assert (log + [e])[..|log + [e]| - 1] == log;
  }

  /** Typing-indicator effects leave every projection as it was. */
  lemma IndicatorInvisible(log: seq<Effect>, e: Effect)
    requires e.TypingStarted? || e.TypingStopped?
    ensures Messages(log + [e]) == Messages(log) && Reactions(log + [e]) == Reactions(log)
    ensures Pauses(log + [e]) == Pauses(log) && Visible(log + [e]) == Visible(log)
  {
    ProjectionsSnoc(log, e);
    assert Messages(log) + [] == Messages(log) && Reactions(log) + [] == Reactions(log);
    assert Pauses(log) + [] == Pauses(log) && Visible(log) + [] == Visible(log);
  }

  /**
   * Regrouping a concatenation. Stated as a lemma so that the inductive
   * proofs about runs regroup their summaries without asking the solver to
   * compare sequences element by element in a large context.
   */
  lemma AppendAssoc<T>(a: seq<T>, b: seq<T>, c: seq<T>)
    ensures (a + b) + c == a + (b + c)
  {
  }

  /** The first `k` elements are the first `i`, then the first `k - i` of the rest. */
  lemma PrefixOfRest<T>(xs: seq<T>, i: nat, k: nat)
    requires i <= k <= |xs|
    ensures xs[..i] + xs[i..][..k - i] == xs[..k]
  {
  }

  lemma {:induction false} SumAppend(xs: seq<nat>, ys: seq<nat>)
    ensures Sum(xs + ys) == Sum(xs) + Sum(ys)
  {
    if ys == [] {
      assert xs + ys == xs;
    } else {
      var zs := ys[..|ys| - 1];
      assert (xs + ys)[..|xs + ys| - 1] == xs + zs;
      SumAppend(xs, zs);
    }
  }

  /** The typing indicator never posts, reacts or pauses: those projections see through it. */
  lemma {:induction false} ProjectionsOfVisible(log: seq<Effect>)
    ensures Messages(Visible(log)) == Messages(log)
    ensures Reactions(Visible(log)) == Reactions(log)
    ensures Pauses(Visible(log)) == Pauses(log)
  {
    if log != [] {
      var p, e := log[..|log| - 1], log[|log| - 1];
      assert log == p + [e];
      ProjectionsOfVisible(p);
      ProjectionsSnoc(p, e);
      ProjectAppend(Visible(p), NotTyping(e), PostedText);
      ProjectAppend(Visible(p), NotTyping(e), ReactionOf);
      ProjectAppend(Visible(p), NotTyping(e), PauseOf);
      if !e.TypingStarted? && !e.TypingStopped? {
        ProjectionsSnoc([], e);
        assert [] + [e] == [e];
      }
    }
  }

  /** `posted` counts the messages in the log. */
  predicate Consistent(s: State) {
    s.posted == |Messages(s.log)|
  }

  // Each call into Discord, as a transition of the recorded state.

  /** `channel.say`: posts `text` unless this send fails; yields the new message's index. */
  function SendStep(o: Outcomes, s: State, text: string): (State, Option<nat>) {
    if s.sends in o.sendFails then (s.(sends := s.sends + 1), None)
    else (s.(log := s.log + [Posted(text)], posted := s.posted + 1, sends := s.sends + 1), Some(s.posted))
  }

  /** `message.react`: adds `emoji` to message `message` unless this reaction fails. */
  function ReactStep(o: Outcomes, s: State, message: nat, emoji: char): (State, bool) {
    if s.reacts in o.reactFails then (s.(reacts := s.reacts + 1), false)
    else (s.(log := s.log + [Reacted(message, emoji)], reacts := s.reacts + 1), true)
  }

  /** `start_typing`: shows the typing indicator unless this start fails. */
  function StartTypingStep(o: Outcomes, s: State): (State, bool) {
    if s.typings in o.typingFails then (s.(typings := s.typings + 1), false)
    else (s.(log := s.log + [TypingStarted], typings := s.typings + 1), true)
  }

  /** `Typing::stop`: hides the typing indicator. */
  function StopTypingStep(s: State): State {
    s.(log := s.log + [TypingStopped])
  }

  /** `tokio::time::sleep`: a pause, recorded only by its duration. */
  function SleepStep(s: State, millis: nat): State {
    s.(log := s.log + [Slept(millis)])
  }

  /** A guild channel together with the clock, recording everything done to it. */
  class Channel {
    const outcomes: Outcomes
    var log: seq<Effect>
    var posted: nat
    var sends: nat
    var reacts: nat
    var typings: nat

    function Snapshot(): State
      reads this
    {
      State(log, posted, sends, reacts, typings)
    }

    constructor (outcomes: Outcomes)
      ensures this.outcomes == outcomes && Snapshot() == Fresh
    {
      this.outcomes := outcomes;
      log, posted, sends, reacts, typings := [], 0, 0, 0, 0;
    }

    method Say(text: string) returns (message: Option<nat>)
      modifies this
      ensures (Snapshot(), message) == SendStep(outcomes, old(Snapshot()), text)
    {
      message := if sends in outcomes.sendFails then None else Some(posted);
      if message.Some? {
        log := log + [Posted(text)];
        posted := posted + 1;
      }
      sends := sends + 1;
    }

    method React(message: nat, emoji: char) returns (ok: bool)
      modifies this
      ensures (Snapshot(), ok) == ReactStep(outcomes, old(Snapshot()), message, emoji)
    {
      ok := reacts !in outcomes.reactFails;
      if ok {
        log := log + [Reacted(message, emoji)];
      }
      reacts := reacts + 1;
    }

    method StartTyping() returns (ok: bool)
      modifies this
      ensures (Snapshot(), ok) == StartTypingStep(outcomes, old(Snapshot()))
    {
      ok := typings !in outcomes.typingFails;
      if ok {
        log := log + [TypingStarted];
      }
      typings := typings + 1;
    }

    method StopTyping()
      modifies this
      ensures Snapshot() == StopTypingStep(old(Snapshot()))
    {
      log := log + [TypingStopped];
    }

    method Sleep(millis: nat)
      modifies this
      ensures Snapshot() == SleepStep(old(Snapshot()), millis)
    {
      log := log + [Slept(millis)];
    }
  }
}
