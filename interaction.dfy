/**
 * Handling of a slash command: `handle_interaction_create` routes the
 * command by name, and `start_gathering` resolves the originating channel,
 * answers the interaction, plays the gather script there and reports a
 * failed run in the channel.
 *
 * The interaction responses are recorded by a `Responder`; a failure to
 * respond is only logged by the bot, so it has no outcome here. Resolving
 * the channel id is a network call and enters as a `Lookup` value.
 */
module Interactions {
  import opened Wrappers
  import opened Channels
  import opened Gather
  import GatherProperties
  import GatherScript

  const PING_REPLY: string := "Hey, I'm alive!"
  const ERROR_PREFIX: string := "Encountered an error: "
  const CHANNEL_NOT_FOUND: string := "Internal error: could not find the originating channel."
  const NOT_A_SERVER_CHANNEL: string := "This command can only be used in a server channel."

  /** An incoming interaction: a slash command, with its name and the invoking user's name, or anything else. */
  datatype Interaction =
    | ApplicationCommand(name: string, user: string)
    | OtherInteraction

  /** What the command's channel id resolved to. */
  datatype Lookup =
    | Unreachable                  // the channel could not be fetched
    | NotInGuild                   // it is a channel, but not a server channel
    | InGuild(channel: Channel)

  /** The commands the bot knows. */
  datatype Command = GatherCommand | PingCommand | Unimplemented(name: string)

  /** The `match` on the command name. */
  function Route(name: string): (c: Command)
    ensures c == GatherCommand <==> name == "gather"
    ensures c == PingCommand <==> name == "ping"
    ensures c.Unimplemented? ==> c.name == name
  {
    if name == "gather" then GatherCommand
    else if name == "ping" then PingCommand
    else Unimplemented(name)
  }

  /** `get_guild_channel`: the server channel, or the message explaining why there is none. */
  function GuildChannel(lookup: Lookup): (r: Result<Channel>)
    ensures r.Ok? <==> lookup.InGuild?
    ensures r.Ok? ==> r.value == lookup.channel
    ensures lookup.Unreachable? ==> r == Err(CHANNEL_NOT_FOUND)
    ensures lookup.NotInGuild? ==> r == Err(NOT_A_SERVER_CHANNEL)
  {
    match lookup
    case Unreachable => Err(CHANNEL_NOT_FOUND)
    case NotInGuild => Err(NOT_A_SERVER_CHANNEL)
    case InGuild(channel) => Ok(channel)
  }

  function Greeting(user: string): string {
    "OK " + user + ", let's get this party started!"
  }

  /** The response `start_gathering` gives to the interaction. */
  function GatherResponse(user: string, lookup: Lookup): (text: string)
    ensures lookup.InGuild? ==> text == Greeting(user)
    ensures !lookup.InGuild? ==> text == GuildChannel(lookup).error
  {
    var r := GuildChannel(lookup);
    if r.Ok? then Greeting(user) else r.error
  }

  /** The response to an interaction, if it gets one. */
  function Reply(interaction: Interaction, lookup: Lookup): (reply: Option<string>)
    ensures reply.Some? <==> interaction.ApplicationCommand? && interaction.name in {"gather", "ping"}
    ensures interaction.ApplicationCommand? && interaction.name == "ping" ==> reply == Some(PING_REPLY)
    ensures interaction.ApplicationCommand? && interaction.name == "gather"
            ==> reply == Some(GatherResponse(interaction.user, lookup))
  {
    if interaction.OtherInteraction? then None
    else
      match Route(interaction.name)
      case GatherCommand => Some(GatherResponse(interaction.user, lookup))
      case PingCommand => Some(PING_REPLY)
      case Unimplemented(_) => None
  }

  /** The channel after `start_gathering` played the script from `s` and reported a failure, if any. */
  function AfterGathering(o: Outcomes, s: State): State {
    var p := Play(o, s, None, Script, 0);
    if p.outcome.Ok? then p.state else SendStep(o, p.state, ERROR_PREFIX + p.outcome.error).0
  }

  /** The interaction responses given so far. */
  class Responder {
    var responses: seq<string>

    constructor ()
      ensures responses == []
    {
      responses := [];
    }

    /** `respond_to_interaction`. */
    method Respond(content: string)
      modifies this
      ensures responses == old(responses) + [content]
    {
      responses := responses + [content];
    }
  }

  /** `start_gathering`. */
  method StartGathering(responder: Responder, user: string, lookup: Lookup)
    modifies responder, if lookup.InGuild? then {lookup.channel} else {}
    ensures responder.responses == old(responder.responses) + [GatherResponse(user, lookup)]
    ensures lookup.InGuild? ==>
              lookup.channel.Snapshot() == AfterGathering(lookup.channel.outcomes, old(lookup.channel.Snapshot()))
  {
    var found := GuildChannel(lookup);
    match found {
      case Ok(channel) =>
        responder.Respond(Greeting(user));
        var sequence := new GatherSequence(channel);
        var run := sequence.Run();
        if run.Err? {
          var _ := channel.Say(ERROR_PREFIX + run.error);
        }
      case Err(msg) =>
        responder.Respond(msg);
    }
  }

  /** `handle_interaction_create`. */
  method HandleInteractionCreate(responder: Responder, interaction: Interaction, lookup: Lookup)
    modifies responder, if lookup.InGuild? then {lookup.channel} else {}
    ensures var reply := Reply(interaction, lookup);
            responder.responses == old(responder.responses) + (if reply.Some? then [reply.value] else [])
    ensures lookup.InGuild? ==>
              lookup.channel.Snapshot()
              == if interaction.ApplicationCommand? && interaction.name == "gather"
                 then AfterGathering(lookup.channel.outcomes, old(lookup.channel.Snapshot()))
                 else old(lookup.channel.Snapshot())
  {
    if interaction.ApplicationCommand? {
      match Route(interaction.name) {
        case GatherCommand =>
          StartGathering(responder, interaction.user, lookup);
        case PingCommand =>
          responder.Respond(PING_REPLY);
        case Unimplemented(_) =>
      }
    }
  }

  /**
   * A run that succeeds adds nothing after it; a run that fails is
   * followed by one attempt to post "Encountered an error: " and the
   * error, which appears in the channel if that send goes through.
   */
  lemma GatheringReportsFailure(o: Outcomes, s: State)
    ensures var p := Play(o, s, None, Script, 0);
            var s' := AfterGathering(o, s);
            && (p.outcome.Ok? ==> s' == p.state)
            && (p.outcome.Err? ==>
                  && s'.sends == p.state.sends + 1
                  && Messages(s'.log)
                     == Messages(p.state.log) + (if p.state.sends in o.sendFails then [] else [ERROR_PREFIX + p.outcome.error]))
  {
    var p := Play(o, s, None, Script, 0);
    if p.outcome.Err? {
      ProjectionsSnoc(p.state.log, Posted(ERROR_PREFIX + p.outcome.error));
      assert Messages(p.state.log) + [] == Messages(p.state.log);
    }
  }

  /**
   * In a fresh channel where the k-th send fails, the channel ends with
   * the first k texts and then the report of the send error.
   */
  lemma GatheringSendFails(o: Outcomes, k: nat)
    requires k < |GatherScript.Texts| && GatherProperties.NoneFail(o.sendFails, 0, k) && k in o.sendFails
    requires k >= 3 ==> 0 !in o.reactFails
    requires k + 1 !in o.sendFails
    ensures Messages(AfterGathering(o, Fresh).log)
            == GatherScript.Texts[..k] + [ERROR_PREFIX + SEND_ERROR]
  {
    GatherScript.RunSendFails(o, k);
    GatheringReportsFailure(o, Fresh);
  }

  /**
   * In a fresh channel where the reaction fails, the channel ends with the
   * first three texts and then the report of the react error.
   */
  lemma GatheringReactFails(o: Outcomes)
    requires GatherProperties.NoneFail(o.sendFails, 0, 4) && 0 in o.reactFails
    ensures Messages(AfterGathering(o, Fresh).log)
            == GatherScript.Texts[..3] + [ERROR_PREFIX + REACT_ERROR]
  {
    GatherScript.RunReactFails(o);
    GatheringReportsFailure(o, Fresh);
  }
}
