/**
 * The scripted "gather everyone" routine: a fixed list of actions played
 * in order against one channel. `Play` is the meaning of a script as a
 * function of the channel's recorded state; `GatherSequence.Run` is the
 * loop that performs it and is proved to do exactly what `Play` says.
 */
module Gather {
  import opened Wrappers
  import opened Channels
  import TypingDelay

  /** One step of the script. */
  datatype GatherAction =
    | Sleep(millis: nat)
    | Say(text: string)
    | AddReaction(emoji: char)

  const SEND_ERROR: string := "Unable to send message in channel"
  const REACT_ERROR: string := "Failed to react to message"

  /** U+1F634 SLEEPING FACE. */
  const SLEEPING_FACE: char := '\U{1F634}'

  /** The script that `run` plays. */
  const Script: seq<GatherAction> := [
    Sleep(1000),
    Say("Hey!"),
    Sleep(1000),
    Say("What's going on here?"),
    Sleep(1000),
    Say("Why is @everyone asleep!?!?"),
    Sleep(500),
    AddReaction(SLEEPING_FACE),
    Sleep(2000),
    Say("Come on come one! Wake up!"),
    Sleep(500),
    Say("It's Time to Game!")
  ]

  /**
   * `say_with_typing`: start the typing indicator (a failure is ignored),
   * pause for `delay`, send `content`, and stop the indicator only when it
   * did start and the send went through. Yields the new message's index.
   */
  function SayWithTypingStep(o: Outcomes, s: State, delay: nat, content: string): (State, Result<nat>) {
    var (s1, typing) := StartTypingStep(o, s);
    var s2 := SleepStep(s1, delay);
    var (s3, message) := SendStep(o, s2, content);
    if message.None? then (s3, Err(SEND_ERROR))
    else (if typing then StopTypingStep(s3) else s3, Ok(message.value))
  }

  /** Where a run stands: the channel's state, `last_message`, and success or the error that ended it. */
  datatype Progress = Progress(state: State, last: Option<nat>, outcome: Result<()>)

  /** One iteration of the loop in `run`. */
  function ActionStep(o: Outcomes, s: State, last: Option<nat>, action: GatherAction): Progress {
    match action
    case Sleep(millis) => Progress(SleepStep(s, millis), last, Ok(()))
    case Say(text) =>
      var (s', r) := SayWithTypingStep(o, s, TypingDelay.Delay(text), text);
      if r.Err? then Progress(s', last, Err(r.error)) else Progress(s', Some(r.value), Ok(()))
    case AddReaction(emoji) =>
      if last.None? then Progress(s, last, Ok(()))
      else
        var (s', ok) := ReactStep(o, s, last.value, emoji);
        Progress(s', last, if ok then Ok(()) else Err(REACT_ERROR))
  }

  /** Plays `actions[from..]` in order from `s`, stopping at the first error. */
  function Play(o: Outcomes, s: State, last: Option<nat>, actions: seq<GatherAction>, from: nat): Progress
    decreases |actions| - from
  {
    if from >= |actions| then Progress(s, last, Ok(()))
    else
      var p := ActionStep(o, s, last, actions[from]);
      if p.outcome.Err? then p else Play(o, p.state, p.last, actions, from + 1)
  }

  /** Plays `actions[from..]` after `p`, unless `p` already failed. */
  function Continue(o: Outcomes, p: Progress, actions: seq<GatherAction>, from: nat): Progress {
    if p.outcome.Err? then p else Play(o, p.state, p.last, actions, from)
  }

  /** `say_with_typing`. */
  method SayWithTyping(channel: Channel, delay: nat, content: string) returns (r: Result<nat>)
    modifies channel
    ensures (channel.Snapshot(), r) == SayWithTypingStep(channel.outcomes, old(channel.Snapshot()), delay, content)
  {
    var typing := channel.StartTyping();
    channel.Sleep(delay);
    var message := channel.Say(content);
    if message.None? {
      return Err(SEND_ERROR);
    }
    if typing {
      channel.StopTyping();
    }
    return Ok(message.value);
  }

  /** `GatherSequence`: the routine bound to the channel it plays in. */
  class GatherSequence {
    const channel: Channel

    constructor (channel: Channel)
      ensures this.channel == channel
    {
      this.channel := channel;
    }

    /** `run`: plays `Script`, returning the first error met. */
    method Run() returns (r: Result<()>)
      modifies channel
      ensures var p := Play(channel.outcomes, old(channel.Snapshot()), None, Script, 0);
              channel.Snapshot() == p.state && r == p.outcome
    {
      ghost var whole := Play(channel.outcomes, channel.Snapshot(), None, Script, 0);
      var last: Option<nat> := None;
      for i := 0 to |Script|
        invariant Play(channel.outcomes, channel.Snapshot(), last, Script, i) == whole
      {
        match Script[i] {
          case Sleep(millis) =>
            SleepMillis(millis);
          case Say(msg) =>
            var message := Say(msg);
            if message.Err? {
              return Err(message.error);
            }
            last := Some(message.value);
          case AddReaction(emoji) =>
            if last.Some? {
              var ok := channel.React(last.value, emoji);
              if !ok {
                return Err(REACT_ERROR);
              }
            }
        }
      }
      return Ok(());
    }

    /** `say`: sends `content` after a typing delay proportional to its byte length. */
    method Say(content: string) returns (r: Result<nat>)
      modifies channel
      ensures (channel.Snapshot(), r) == SayWithTypingStep(channel.outcomes, old(channel.Snapshot()), TypingDelay.Delay(content), content)
    {
      var delay := TypingDelay.Delay(content);
      r := SayWithTyping(channel, delay, content);
    }

    /** `sleep_millis`. */
    method SleepMillis(millis: nat)
      modifies channel
      ensures channel.Snapshot() == SleepStep(old(channel.Snapshot()), millis)
    {
      channel.Sleep(millis);
    }
  }
}
