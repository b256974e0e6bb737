/**
 * The bot's module-level state (main.py:22-27) as one object, and its
 * handlers: the two engagement events, the `!giveaway` command split at
 * its sleep into a start and a resolution, and `!reroll`.
 */
module GiveawayBot {
  import opened Wrappers
  import opened Engagement
  import opened Selection

  /** The dictionary stored per giveaway id. */
  datatype Record = Record(messageId: int, channelId: int, msgReq: int, vcReq: int, winners: int)

  /** How a giveaway ends. */
  datatype Outcome =
    | Cancelled                      // the 🎉 reaction is gone from the announcement
    | NoOneQualified                 // no entrant met the requirements
    | Ended(winners: seq<UserId>)    // the drawn winners, in draw order

  datatype RerollOutcome = InvalidId | NoParticipants | Rerolled(winner: UserId)

  class Bot {
    var giveawayCounter: int
    var giveaways: map<int, Record>
    var messageCount: map<UserId, nat>
    var vcJoinTime: map<UserId, Timestamp>
    var vcMinutes: map<UserId, real>

    /** Every stored id was issued by the counter, which starts at 1. */
    ghost predicate Valid()
      reads this
    {
      giveawayCounter >= 1 &&
      forall id :: id in giveaways ==> 1 <= id < giveawayCounter
    }

    /** The three engagement maps as one value. */
    function Tracked(): Counters
      reads this
    {
      Counters(messageCount, vcJoinTime, vcMinutes)
    }

    constructor ()
      ensures Valid()
      ensures giveawayCounter == 1 && giveaways == map[]
      ensures Tracked() == Counters(map[], map[], map[])
    {
      giveawayCounter := 1;
      giveaways := map[];
      messageCount := map[];
      vcJoinTime := map[];
      vcMinutes := map[];
    }

    /** `on_message`; command dispatch that follows it is not part of this model. */
    method OnMessage(author: UserId, isBot: bool)
      modifies this
      ensures Tracked() == AfterMessage(old(Tracked()), author, isBot)
      ensures giveawayCounter == old(giveawayCounter) && giveaways == old(giveaways)
    {
      if isBot {
        return;
      }
      messageCount := messageCount[author := (if author in messageCount then messageCount[author] else 0) + 1];
    }

    /** `on_voice_state_update` at time `now`. */
    method OnVoiceStateUpdate(member: UserId, wasInChannel: bool, isInChannel: bool, now: Timestamp)
      modifies this
      ensures Tracked() == AfterVoiceStateUpdate(old(Tracked()), member, wasInChannel, isInChannel, now)
      ensures giveawayCounter == old(giveawayCounter) && giveaways == old(giveaways)
    {
      if isInChannel && !wasInChannel {
        vcJoinTime := vcJoinTime[member := now];
      }
      if wasInChannel && !isInChannel {
        if member in vcJoinTime {
          var start := vcJoinTime[member];
          vcJoinTime := vcJoinTime - {member};
          vcMinutes := vcMinutes[member := (if member in vcMinutes then vcMinutes[member] else 0.0) + SessionMinutes(start, now)];
        }
      }
    }

    /**
     * The `!giveaway` command up to its sleep: reset the tracker, open a
     * session at `now` for everyone in the guild's voice channels (listed
     * channel by channel in `channels`), take the next id and store the
     * record of the announcement message.
     */
    method StartGiveaway(channels: seq<seq<UserId>>, now: Timestamp,
                         messageId: int, channelId: int, msgReq: int, vcReq: int, winners: int)
      returns (id: int)
      requires Valid()
      modifies this
      ensures Valid()
      ensures Tracked() == WindowStart(channels, now)
      ensures id == old(giveawayCounter) && giveawayCounter == id + 1
      ensures forall k :: k in old(giveaways) ==> k < id
      ensures giveaways == old(giveaways)[id := Record(messageId, channelId, msgReq, vcReq, winners)]
    {
      messageCount := map[];
      vcMinutes := map[];
      vcJoinTime := map[];

      for i := 0 to |channels|
        invariant messageCount == map[] && vcMinutes == map[]
        invariant giveawayCounter == old(giveawayCounter) && giveaways == old(giveaways)
        invariant vcJoinTime.Keys == Members(channels[..i])
        invariant forall u :: u in vcJoinTime ==> vcJoinTime[u] == now
      {
        var members := channels[i];
        for j := 0 to |members|
          invariant messageCount == map[] && vcMinutes == map[]
          invariant giveawayCounter == old(giveawayCounter) && giveaways == old(giveaways)
          invariant vcJoinTime.Keys == Members(channels[..i]) + set u | u in members[..j]
          invariant forall u :: u in vcJoinTime ==> vcJoinTime[u] == now
        {
          if members[j] !in vcJoinTime {
            vcJoinTime := vcJoinTime[members[j] := now];
          }
          assert members[..j + 1] == members[..j] + [members[j]];
        }
        assert members[..|members|] == members;
        assert channels[..i + 1][..i] == channels[..i];
      }
      assert channels[..|channels|] == channels;
      ghost var primed := map u | u in Members(channels) :: now;
      assert vcJoinTime.Keys == primed.Keys;
      assert forall u :: u in primed ==> vcJoinTime[u] == primed[u];
      assert vcJoinTime == primed;

      id := giveawayCounter;
      giveawayCounter := giveawayCounter + 1;
      giveaways := giveaways[id := Record(messageId, channelId, msgReq, vcReq, winners)];
    }

    /** The loop that builds `valid_users` from the entrants. */
    method ValidUsers(users: seq<UserId>, msgReq: int, vcReq: int) returns (valid: seq<UserId>)
      ensures valid == Filter(Tracked(), users, msgReq, vcReq)
      ensures forall u :: u in valid <==> u in users && Eligible(Tracked(), u, msgReq, vcReq)
    {
      valid := [];
      for i := 0 to |users|
        invariant valid == Filter(Tracked(), users[..i], msgReq, vcReq)
      {
        var user := users[i];
        var msgs := if user in messageCount then messageCount[user] else 0;
        var vc := if user in vcMinutes then vcMinutes[user] else 0.0;

        // the requirement cascade of the source, as `Selection.Passed`
        var passed := Passed(msgs, vc, msgReq, vcReq);

        assert users[..i + 1][..i] == users[..i];
        if passed {
          valid := valid + [user];
        }
      }
      assert users[..|users|] == users;
    }

    /**
     * The `!giveaway` command after its sleep.  `reactionPresent` says
     * whether the announcement still carries the 🎉 reaction, `reactors`
     * lists its non-bot reactors, and `picks` is the random source of the draw.
     */
    method Resolve(reactionPresent: bool, reactors: seq<UserId>,
                   msgReq: int, vcReq: int, winners: int, picks: seq<nat>)
      returns (o: Outcome)
      requires winners >= 0 || !reactionPresent || forall u :: u in reactors ==> !Eligible(Tracked(), u, msgReq, vcReq)
      ensures o == Cancelled <==> !reactionPresent
      ensures o == NoOneQualified <==>
        reactionPresent && forall u :: u in reactors ==> !Eligible(Tracked(), u, msgReq, vcReq)
      ensures o.Ended? ==> reactionPresent
      ensures o.Ended? ==> |o.winners| == Min(winners, |Filter(Tracked(), reactors, msgReq, vcReq)|)
      ensures o.Ended? ==> multiset(o.winners) <= multiset(Filter(Tracked(), reactors, msgReq, vcReq))
      ensures o.Ended? ==> forall w :: w in o.winners ==> w in reactors && Eligible(Tracked(), w, msgReq, vcReq)
      ensures o.Ended? && Distinct(reactors) ==> Distinct(o.winners)
    {
      if !reactionPresent {
        return Cancelled;
      }
      var valid := ValidUsers(reactors, msgReq, vcReq);
      if valid == [] {
        return NoOneQualified;
      }
      assert valid[0] in reactors && Eligible(Tracked(), valid[0], msgReq, vcReq);
      o := Ended(Sample(valid, Min(winners, |valid|), picks));
    }

    /**
     * `!reroll id`: `reactorsOf(channel, message)` lists the non-bot users
     * now reacting 🎉 to that message, and `pick` is the random source.
     */
    method Reroll(id: int, reactorsOf: (int, int) -> seq<UserId>, pick: nat) returns (o: RerollOutcome)
      ensures o == InvalidId <==> id !in giveaways
      ensures o == NoParticipants <==>
        id in giveaways && reactorsOf(giveaways[id].channelId, giveaways[id].messageId) == []
      ensures o.Rerolled? ==>
        id in giveaways && o.winner in reactorsOf(giveaways[id].channelId, giveaways[id].messageId)
      ensures o.Rerolled? ==>
        o.winner == Choice(reactorsOf(giveaways[id].channelId, giveaways[id].messageId), pick)
      ensures id in giveaways && pick < |reactorsOf(giveaways[id].channelId, giveaways[id].messageId)| ==>
        o == Rerolled(reactorsOf(giveaways[id].channelId, giveaways[id].messageId)[pick])
    {
      var data := Lookup(giveaways, id);
      if data.None? {
        return InvalidId;
      }
      var users := reactorsOf(data.value.channelId, data.value.messageId);
      if users == [] {
        return NoParticipants;
      }
      o := Rerolled(Choice(users, pick));
    }
  }
}
