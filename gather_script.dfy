/**
 * What playing the fixed gather script does, derived from the general
 * properties of `Play`. The script's structure is first stated over any
 * five texts (`Shaped`), so that the summaries of the script are proved
 * without looking inside the literal texts; the literal texts enter only
 * through their typing delays.
 */
module GatherScript {
  import opened Wrappers
  import opened Channels
  import opened Gather
  import opened GatherProperties
  import TypingDelay

  /** The texts `run` sends, in order. */
  const Texts: seq<string> := [
    "Hey!",
    "What's going on here?",
    "Why is @everyone asleep!?!?",
    "Come on come one! Wake up!",
    "It's Time to Game!"
  ]

  /** The pauses of a run in which nothing fails: scripted sleeps and typing delays, in order. */
  const RunPauses: seq<nat> := [1000, 400, 1000, 2100, 1000, 2700, 500, 2000, 2600, 500, 1800]

  /** The gather script's sequence of actions, with `t` as its five texts, one action at a time. */
  predicate Shaped(actions: seq<GatherAction>, t: seq<string>) {
    && |t| == 5 && |actions| == 12
    && actions[0] == Sleep(1000) && actions[1] == Say(t[0])
    && actions[2] == Sleep(1000) && actions[3] == Say(t[1])
    && actions[4] == Sleep(1000) && actions[5] == Say(t[2])
    && actions[6] == Sleep(500) && actions[7] == AddReaction(SLEEPING_FACE)
    && actions[8] == Sleep(2000) && actions[9] == Say(t[3])
    && actions[10] == Sleep(500) && actions[11] == Say(t[4])
  }

  lemma ScriptShaped()
    ensures Shaped(Script, Texts)
  {
  }

  /** From its reaction on, it sends the last two texts. */
  lemma ShapedLateTexts(actions: seq<GatherAction>, t: seq<string>)
    requires Shaped(actions, t)
    ensures SayTexts(actions, 7) == SayTexts(actions, 8) == [t[3], t[4]]
  {
    assert SayTexts(actions, 12) == [];
    assert SayTexts(actions, 11) == [t[4]];
    assert SayTexts(actions, 10) == [t[4]];
    assert SayTexts(actions, 9) == [t[3], t[4]];
  }

  /** Up to its reaction, it sends the first three texts. */
  lemma ShapedEarlyTexts(actions: seq<GatherAction>, t: seq<string>)
    requires Shaped(actions, t)
    ensures SayTexts(actions, 0) == [t[0], t[1], t[2]] + SayTexts(actions, 7)
  {
    var late := SayTexts(actions, 7);
    assert SayTexts(actions, 5) == [t[2]] + late;
    assert SayTexts(actions, 3) == [t[1]] + SayTexts(actions, 4);
    assert SayTexts(actions, 3) == [t[1], t[2]] + late;
    assert SayTexts(actions, 1) == [t[0]] + SayTexts(actions, 2);
  }

  /** A script of this shape sends its texts in order; the last two after the reaction. */
  lemma ShapedTexts(actions: seq<GatherAction>, t: seq<string>)
    requires Shaped(actions, t)
    ensures SayTexts(actions, 0) == t
    ensures SayTexts(actions, 8) == t[3..]
  {
    ShapedLateTexts(actions, t);
    ShapedEarlyTexts(actions, t);
    assert t == [t[0], t[1], t[2]] + [t[3], t[4]];
  }

  /** Its first seven actions send the first three texts and make no react call. */
  lemma ShapedFront(actions: seq<GatherAction>, t: seq<string>)
    requires Shaped(actions, t)
    ensures SayTexts(actions[..7], 0) == t[..3]
    ensures ReactCalls(actions[..7], 0, false) == 0
  {
    var front := actions[..7];
    assert |front| == 7 && forall i :: 0 <= i < 7 ==> front[i] == actions[i];
    assert SayTexts(front, 7) == [] && ReactCalls(front, 7, true) == 0;
    assert SayTexts(front, 6) == [] && ReactCalls(front, 6, true) == 0;
    assert SayTexts(front, 5) == [t[2]] && ReactCalls(front, 5, true) == 0;
    assert SayTexts(front, 4) == [t[2]] && ReactCalls(front, 4, true) == 0;
    assert SayTexts(front, 3) == [t[1], t[2]] && ReactCalls(front, 3, true) == 0;
    assert SayTexts(front, 2) == [t[1], t[2]] && ReactCalls(front, 2, true) == 0;
    assert SayTexts(front, 1) == [t[0], t[1], t[2]] && ReactCalls(front, 1, false) == 0;
  }

  /** Without failures, its first seven actions pause for three sleeps, three typing delays and one more sleep. */
  lemma ShapedFrontWaits(actions: seq<GatherAction>, t: seq<string>)
    requires Shaped(actions, t)
    ensures var d := TypingDelay.Delay;
            Waits(actions[..7], 0) == [1000, d(t[0]), 1000, d(t[1]), 1000, d(t[2]), 500]
  {
    var d := TypingDelay.Delay;
    var front := actions[..7];
    assert |front| == 7 && forall i :: 0 <= i < 7 ==> front[i] == actions[i];
    assert Waits(front, 7) == [];
    assert Waits(front, 6) == [500];
    assert Waits(front, 5) == [d(t[2]), 500];
    assert Waits(front, 4) == [1000, d(t[2]), 500];
    assert Waits(front, 3) == [d(t[1]), 1000, d(t[2]), 500];
    assert Waits(front, 2) == [1000, d(t[1]), 1000, d(t[2]), 500];
    assert Waits(front, 1) == [d(t[0]), 1000, d(t[1]), 1000, d(t[2]), 500];
  }

  /** Its one react call is its eighth action; its own sleeps add up to 6 seconds. */
  lemma ShapedCounts(actions: seq<GatherAction>, t: seq<string>)
    requires Shaped(actions, t)
    ensures ReactCalls(actions, 0, false) == 1
    ensures ReactCalls(actions, 8, true) == 0
    ensures ScriptedSleep(actions, 0) == 6000
  {
    assert ReactCalls(actions, 12, true) == 0 && ScriptedSleep(actions, 12) == 0;
    assert ReactCalls(actions, 11, true) == 0 && ScriptedSleep(actions, 11) == 0;
    assert ReactCalls(actions, 10, true) == 0 && ScriptedSleep(actions, 10) == 500;
    assert ReactCalls(actions, 9, true) == 0 && ScriptedSleep(actions, 9) == 500;
    assert ReactCalls(actions, 8, true) == 0 && ScriptedSleep(actions, 8) == 2500;
    assert ReactCalls(actions, 7, true) == 1 && ScriptedSleep(actions, 7) == 2500;
    assert ReactCalls(actions, 6, true) == 1 && ScriptedSleep(actions, 6) == 3000;
    assert ReactCalls(actions, 5, true) == 1 && ScriptedSleep(actions, 5) == 3000;
    assert ReactCalls(actions, 4, true) == 1 && ScriptedSleep(actions, 4) == 4000;
    assert ReactCalls(actions, 3, true) == 1 && ScriptedSleep(actions, 3) == 4000;
    assert ReactCalls(actions, 2, true) == 1 && ScriptedSleep(actions, 2) == 5000;
    assert ReactCalls(actions, 1, false) == 1 && ScriptedSleep(actions, 1) == 5000;
  }

  /** When one of its first three sends fails, it has paused for each sleep and typing delay up to that send's. */
  lemma ShapedEarlyPauses(actions: seq<GatherAction>, t: seq<string>)
    requires Shaped(actions, t)
    ensures var d := TypingDelay.Delay;
            && PausesThrough(actions, 0, 0) == [1000, d(t[0])]
            && PausesThrough(actions, 0, 1) == [1000, d(t[0]), 1000, d(t[1])]
            && PausesThrough(actions, 0, 2) == [1000, d(t[0]), 1000, d(t[1]), 1000, d(t[2])]
  {
    var d := TypingDelay.Delay;
    assert PausesThrough(actions, 5, 0) == [d(t[2])];
    assert PausesThrough(actions, 4, 0) == [1000, d(t[2])];
    assert PausesThrough(actions, 3, 0) == [d(t[1])];
    assert PausesThrough(actions, 3, 1) == [d(t[1]), 1000, d(t[2])];
    assert PausesThrough(actions, 2, 0) == [1000, d(t[1])];
    assert PausesThrough(actions, 2, 1) == [1000, d(t[1]), 1000, d(t[2])];
    assert PausesThrough(actions, 1, 0) == [d(t[0])];
    assert PausesThrough(actions, 1, 1) == [d(t[0]), 1000, d(t[1])];
    assert PausesThrough(actions, 1, 2) == [d(t[0]), 1000, d(t[1]), 1000, d(t[2])];
  }

  /** Before any of its first three sends it makes no react call. */
  lemma ShapedEarlyReactCalls(actions: seq<GatherAction>, t: seq<string>)
    requires Shaped(actions, t)
    ensures forall k :: 0 <= k < 3 ==> ReactCallsBefore(actions, 0, k, false) == 0
  {
    assert ReactCallsBefore(actions, 5, 0, true) == 0;
    assert ReactCallsBefore(actions, 4, 0, true) == 0;
    assert ReactCallsBefore(actions, 3, 0, true) == 0 && ReactCallsBefore(actions, 3, 1, true) == 0;
    assert ReactCallsBefore(actions, 2, 0, true) == 0 && ReactCallsBefore(actions, 2, 1, true) == 0;
    assert ReactCallsBefore(actions, 1, 0, false) == 0 && ReactCallsBefore(actions, 1, 1, false) == 0;
    assert ReactCallsBefore(actions, 1, 2, false) == 0;
  }

  /**
   * When one of the two sends after its reaction fails, the run from the
   * reaction on has paused up to that send's typing delay, and made no
   * react call.
   */
  lemma ShapedLateSends(actions: seq<GatherAction>, t: seq<string>)
    requires Shaped(actions, t)
    ensures var d := TypingDelay.Delay;
            && PausesThrough(actions, 8, 0) == [2000, d(t[3])]
            && PausesThrough(actions, 8, 1) == [2000, d(t[3]), 500, d(t[4])]
    ensures ReactCallsBefore(actions, 8, 0, true) == 0 && ReactCallsBefore(actions, 8, 1, true) == 0
  {
    var d := TypingDelay.Delay;
    assert PausesThrough(actions, 11, 0) == [d(t[4])] && ReactCallsBefore(actions, 11, 0, true) == 0;
    assert PausesThrough(actions, 10, 0) == [500, d(t[4])] && ReactCallsBefore(actions, 10, 0, true) == 0;
    assert PausesThrough(actions, 9, 0) == [d(t[3])] && ReactCallsBefore(actions, 9, 0, true) == 0;
    assert PausesThrough(actions, 9, 1) == [d(t[3]), 500, d(t[4])] && ReactCallsBefore(actions, 9, 1, true) == 0;
  }

  /** From its reaction on, without failures, it pauses for two sleeps and two typing delays. */
  lemma ShapedLateWaits(actions: seq<GatherAction>, t: seq<string>)
    requires Shaped(actions, t)
    ensures var d := TypingDelay.Delay;
            Waits(actions, 7) == [2000, d(t[3]), 500, d(t[4])]
  {
    var d := TypingDelay.Delay;
    assert Waits(actions, 12) == [];
    assert Waits(actions, 11) == [d(t[4])];
    assert Waits(actions, 10) == [500, d(t[4])];
    assert Waits(actions, 9) == [d(t[3]), 500, d(t[4])];
    assert Waits(actions, 8) == [2000, d(t[3]), 500, d(t[4])];
  }

  /** Without failures it pauses for each scripted sleep and each text's typing delay, in order. */
  lemma ShapedWaits(actions: seq<GatherAction>, t: seq<string>)
    requires Shaped(actions, t)
    ensures var d := TypingDelay.Delay;
            Waits(actions, 0) == [1000, d(t[0]), 1000, d(t[1]), 1000, d(t[2]), 500] + Waits(actions, 7)
  {
    var d := TypingDelay.Delay;
    var late := Waits(actions, 7);
    assert Waits(actions, 6) == [500] + late;
    assert Waits(actions, 5) == [d(t[2]), 500] + late;
    assert Waits(actions, 4) == [1000, d(t[2]), 500] + late;
    assert Waits(actions, 3) == [d(t[1]), 1000, d(t[2]), 500] + late;
    assert Waits(actions, 2) == [1000, d(t[1]), 1000, d(t[2]), 500] + late;
    assert Waits(actions, 1) == [d(t[0]), 1000, d(t[1]), 1000, d(t[2]), 500] + late;
  }

  /** The first three texts are ASCII, so each typing delay is 100 ms per character. */
  lemma EarlyTextDelays()
    ensures TypingDelay.Delay(Texts[0]) == 400
    ensures TypingDelay.Delay(Texts[1]) == 2100
    ensures TypingDelay.Delay(Texts[2]) == 2700
  {
    TypingDelay.DelayAsciiMonotone(Texts[0], Texts[1]);
    TypingDelay.DelayAsciiMonotone(Texts[2], Texts[2]);
  }

  /** So are the two texts sent after the reaction. */
  lemma LateTextDelays()
    ensures TypingDelay.Delay(Texts[3]) == 2600
    ensures TypingDelay.Delay(Texts[4]) == 1800
  {
    TypingDelay.DelayAsciiMonotone(Texts[4], Texts[3]);
  }

  /** Without failures the script pauses as `RunPauses` says. */
  lemma ScriptWaits()
    ensures Waits(Script, 0) == RunPauses
  {
    ScriptShaped();
    EarlyTextDelays();
    LateTextDelays();
    ShapedLateWaits(Script, Texts);
    ShapedWaits(Script, Texts);
  }

  /** Typing the five texts takes 9.6 seconds: 96 bytes at 100 ms each. */
  lemma TextsTypingTime()
    ensures TypingTime(Texts) == 9600
  {
    EarlyTextDelays();
    LateTextDelays();
    var t := Texts;
    assert TypingTime(t[4..]) == 1800;
    assert TypingTime(t[3..]) == 2600 + 1800 by { assert t[3..][1..] == t[4..]; }
    assert TypingTime(t[2..]) == 2700 + 4400 by { assert t[2..][1..] == t[3..]; }
    assert TypingTime(t[1..]) == 2100 + 7100 by { assert t[1..][1..] == t[2..]; }
  }

  // ---------------------------------------------------------------------
  // Runs of the script from a fresh channel

  /**
   * When every send and the reaction succeed, the run succeeds and the
   * channel receives the five texts in order.
   */
  lemma RunAllSucceed(o: Outcomes)
    requires NoneFail(o.sendFails, 0, |Texts|) && 0 !in o.reactFails
    ensures var p := Play(o, Fresh, None, Script, 0);
            && p.outcome == Ok(())
            && Messages(p.state.log) == Texts
            && p.state.sends == 5
            && p.last == Some(4)
  {
    ScriptShaped();
    ShapedTexts(Script, Texts);
    ShapedCounts(Script, Texts);
    PlayAllSucceed(o, Fresh, None, Script, 0);
  }

  /**
   * When every send and the reaction succeed, the pauses are `RunPauses`:
   * the script's 6 seconds of sleep plus 9.6 seconds of typing.
   */
  lemma RunPausesAllSucceed(o: Outcomes)
    requires NoneFail(o.sendFails, 0, |Texts|) && 0 !in o.reactFails
    ensures var p := Play(o, Fresh, None, Script, 0);
            && Pauses(p.state.log) == RunPauses
            && Sum(Pauses(p.state.log)) == ScriptedSleep(Script, 0) + TypingTime(Texts) == 6000 + 9600
  {
    ScriptShaped();
    ShapedTexts(Script, Texts);
    ShapedCounts(Script, Texts);
    ScriptWaits();
    WaitsTotal(Script, 0);
    TextsTypingTime();
    PlayAllSucceed(o, Fresh, None, Script, 0);
  }

  /** The failure-free pauses up to each send, read off `RunPauses`. */
  lemma RunPausesPrefixes()
    ensures RunPauses[..2] == [1000, 400]
    ensures RunPauses[..4] == [1000, 400, 1000, 2100]
    ensures RunPauses[..6] == [1000, 400, 1000, 2100, 1000, 2700]
    ensures RunPauses[..7] == [1000, 400, 1000, 2100, 1000, 2700, 500]
    ensures RunPauses[..9] == RunPauses[..7] + [2000, 2600]
    ensures RunPauses[..11] == RunPauses[..7] + [2000, 2600, 500, 1800]
  {
  }

  /**
   * When the first three sends succeed, the first seven actions succeed,
   * send the first three texts, take seven pauses and react to nothing.
   */
  lemma FrontReached(o: Outcomes)
    requires NoneFail(o.sendFails, 0, 3)
    ensures var f := Play(o, Fresh, None, Script[..7], 0);
            && f.outcome == Ok(())
            && Messages(f.state.log) == Texts[..3]
            && Pauses(f.state.log) == RunPauses[..7]
            && Reactions(f.state.log) == []
            && f.state.sends == 3 && f.state.reacts == 0 && f.last == Some(2)
  {
    ScriptShaped();
    ShapedFront(Script, Texts);
    ShapedFrontWaits(Script, Texts);
    EarlyTextDelays();
    RunPausesPrefixes();
    PlayAllSucceed(o, Fresh, None, Script[..7], 0);
  }

  /**
   * When the first three sends and the reaction succeed, the run gets
   * through its first eight actions with the first three texts sent, seven
   * pauses taken, and one reaction: the sleeping face, on the third
   * message. The rest of the run goes on from there.
   */
  lemma ReactionReached(o: Outcomes)
    requires NoneFail(o.sendFails, 0, 3) && 0 !in o.reactFails
    ensures var r := Play(o, Fresh, None, Script[..8], 0);
            && r.outcome == Ok(())
            && Play(o, Fresh, None, Script, 0) == Play(o, r.state, r.last, Script, 8)
            && Messages(r.state.log) == Texts[..3]
            && Pauses(r.state.log) == RunPauses[..7]
            && Reactions(r.state.log) == [(2, SLEEPING_FACE)]
            && r.state.sends == 3 && r.state.reacts == 1 && r.last == Some(2)
  {
    var head := Script[..8];
    assert head[..7] == Script[..7] && head[7] == Script[7] == AddReaction(SLEEPING_FACE);
    var front := Play(o, Fresh, None, Script[..7], 0);
    FrontReached(o);
    PlaySplit(o, Fresh, None, head, 0, 7);
    PlaySplit(o, Fresh, None, Script, 0, 8);
    var q := ActionStep(o, front.state, front.last, Script[7]);
    StepSucceeds(o, front.state, front.last, Script[7]);
    assert Play(o, front.state, front.last, head, 7) == q;
  }

  /**
   * When every send and the reaction succeed, exactly one reaction is
   * recorded: the sleeping face, on the third message.
   */
  lemma RunReactsOnce(o: Outcomes)
    requires NoneFail(o.sendFails, 0, |Texts|) && 0 !in o.reactFails
    ensures var p := Play(o, Fresh, None, Script, 0);
            Reactions(p.state.log) == [(2, SLEEPING_FACE)] && p.state.reacts == 1
  {
    ReactionReached(o);
    ScriptShaped();
    ShapedTexts(Script, Texts);
    ShapedCounts(Script, Texts);
    var r := Play(o, Fresh, None, Script[..8], 0);
    PlayAllSucceed(o, r.state, r.last, Script, 8);
  }

  /** One of the first three sends fails: the run stops before the reaction. */
  lemma EarlySendFails(o: Outcomes, k: nat)
    requires k < 3 && NoneFail(o.sendFails, 0, k) && k in o.sendFails
    ensures var p := Play(o, Fresh, None, Script, 0);
            && p.outcome == Err(SEND_ERROR)
            && Messages(p.state.log) == Texts[..k]
            && Pauses(p.state.log) == RunPauses[..2 * k + 2]
            && p.state.sends == k + 1
            && p.state.reacts == 0
            && Reactions(p.state.log) == []
  {
    ScriptShaped();
    ShapedTexts(Script, Texts);
    ShapedEarlyPauses(Script, Texts);
    ShapedEarlyReactCalls(Script, Texts);
    EarlyTextDelays();
    RunPausesPrefixes();
    PlaySendFails(o, Fresh, None, Script, 0, k);
  }

  /** One of the two sends after the reaction fails: the reaction was made. */
  lemma LateSendFails(o: Outcomes, k: nat)
    requires 3 <= k < 5 && NoneFail(o.sendFails, 0, k) && k in o.sendFails && 0 !in o.reactFails
    ensures var p := Play(o, Fresh, None, Script, 0);
            && p.outcome == Err(SEND_ERROR)
            && Messages(p.state.log) == Texts[..k]
            && Pauses(p.state.log) == RunPauses[..2 * k + 3]
            && p.state.sends == k + 1
            && p.state.reacts == 1
            && Reactions(p.state.log) == [(2, SLEEPING_FACE)]
  {
    ScriptShaped();
    ShapedTexts(Script, Texts);
    ReactionReached(o);
    ShapedLateSends(Script, Texts);
    LateTextDelays();
    RunPausesPrefixes();
    var r := Play(o, Fresh, None, Script[..8], 0);
    PlaySendFails(o, r.state, r.last, Script, 8, k - 3);
    PrefixOfRest(Texts, 3, k);
  }

  /**
   * If the k-th send fails and every call before it succeeded, the run
   * fails with the send error. The channel holds exactly the first k texts.
   * The run paused for every sleep and typing delay up to the failed
   * send's, reacted only if it got past the reaction, and attempted no
   * send after the failing one.
   */
  lemma RunSendFails(o: Outcomes, k: nat)
    requires k < |Texts| && NoneFail(o.sendFails, 0, k) && k in o.sendFails
    requires k >= 3 ==> 0 !in o.reactFails
    ensures var p := Play(o, Fresh, None, Script, 0);
            && p.outcome == Err(SEND_ERROR)
            && Messages(p.state.log) == Texts[..k]
            && Pauses(p.state.log) == RunPauses[..if k < 3 then 2 * k + 2 else 2 * k + 3]
            && p.state.sends == k + 1
            && p.state.reacts == (if k < 3 then 0 else 1)
            && Reactions(p.state.log) == (if k < 3 then [] else [(2, SLEEPING_FACE)])
  {
    if k < 3 {
      EarlySendFails(o, k);
    } else {
      LateSendFails(o, k);
    }
  }

  /**
   * If the reaction fails after the first three sends succeeded, the run
   * fails with the react error: three messages, no reaction, and the last
   * two texts are never sent.
   */
  lemma RunReactFails(o: Outcomes)
    requires NoneFail(o.sendFails, 0, 3) && 0 in o.reactFails
    ensures var p := Play(o, Fresh, None, Script, 0);
            && p.outcome == Err(REACT_ERROR)
            && Messages(p.state.log) == Texts[..3]
            && Reactions(p.state.log) == []
            && p.state.sends == 3
  {
    FrontReached(o);
    PlaySplit(o, Fresh, None, Script, 0, 7);
  }

  /**
   * Whether the typing indicators start or not, the run has the same
   * outcome and leaves the same messages, reactions and pauses.
   */
  lemma RunIgnoresTyping(o: Outcomes, typingFails: set<nat>)
    ensures var p := Play(o, Fresh, None, Script, 0);
            var p' := Play(o.(typingFails := typingFails), Fresh, None, Script, 0);
            && p.outcome == p'.outcome
            && Messages(p.state.log) == Messages(p'.state.log)
            && Reactions(p.state.log) == Reactions(p'.state.log)
            && Pauses(p.state.log) == Pauses(p'.state.log)
  {
    var p := Play(o, Fresh, None, Script, 0);
    var p' := Play(o.(typingFails := typingFails), Fresh, None, Script, 0);
    PlayIgnoresTyping(o, typingFails, Fresh, Fresh, None, Script, 0);
    ProjectionsOfVisible(p.state.log);
    ProjectionsOfVisible(p'.state.log);
  }

  /**
   * However the calls turn out, every reaction of a run lands on the
   * message posted just before it, and `last_message` ends on the newest
   * message.
   */
  lemma RunReactsOnLatest(o: Outcomes)
    ensures var p := Play(o, Fresh, None, Script, 0);
            ReactsOnLatest(p.state.log) && TracksLatest(p.state, p.last)
  {
    PlayReactsOnLatest(o, Fresh, None, Script, 0);
  }
}
