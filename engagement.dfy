/**
 * The engagement tracker of the bot: the three process-wide dictionaries
 * `message_count`, `vc_join_time` and `vc_minutes` (main.py:25-27) as one
 * value, and the events that change them as pure transitions.  The class
 * `GiveawayBot.Bot` performs these transitions in place; the functions
 * here are its specification.
 */
module Engagement {
  import opened Wrappers

  /** A Discord user (member) id. */
  type UserId = int

  /** A point in time, in whole seconds. */
  type Timestamp = int

  datatype Counters = Counters(
    messageCount: map<UserId, nat>,       // messages sent since the window opened
    vcJoinTime: map<UserId, Timestamp>,   // start of the user's open voice session
    vcMinutes: map<UserId, real>)         // voice minutes of closed sessions

  /** Everything the three maps hold about one user. */
  datatype Entry = Entry(messages: Option<nat>, joinedAt: Option<Timestamp>, minutes: Option<real>)

  function EntryOf(c: Counters, u: UserId): Entry
  {
    Entry(Lookup(c.messageCount, u), Lookup(c.vcJoinTime, u), Lookup(c.vcMinutes, u))
  }

  /** `message_count.get(u, 0)` */
  function MessagesOf(c: Counters, u: UserId): nat
  {
    if u in c.messageCount then c.messageCount[u] else 0
  }

  /** `vc_minutes.get(u, 0)` */
  function MinutesOf(c: Counters, u: UserId): real
  {
    if u in c.vcMinutes then c.vcMinutes[u] else 0.0
  }

  /** Length in minutes of a voice session from `start` to `now`. */
  function SessionMinutes(start: Timestamp, now: Timestamp): real
  {
    (now - start) as real / 60.0
  }

  /** `on_message`: a message by a human adds one to its author's count. */
  function AfterMessage(c: Counters, author: UserId, isBot: bool): (r: Counters)
    ensures isBot ==> r == c
    ensures !isBot ==> MessagesOf(r, author) == MessagesOf(c, author) + 1
    ensures !isBot ==> EntryOf(r, author) == EntryOf(c, author).(messages := Some(MessagesOf(c, author) + 1))
    ensures forall v :: v != author ==> EntryOf(r, v) == EntryOf(c, v)
  {
    if isBot then c
    else c.(messageCount := c.messageCount[author := MessagesOf(c, author) + 1])
  }

  /**
   * `on_voice_state_update`: whether the member was in a voice channel
   * before the update and is in one after it.  A join opens (or restarts)
   * the session, a leave closes an open one and credits its minutes, and
   * anything else (a switch between channels, mute, deafen) changes nothing.
   */
  function AfterVoiceStateUpdate(c: Counters, u: UserId, wasInChannel: bool, isInChannel: bool, now: Timestamp): (r: Counters)
    ensures forall v :: v != u ==> EntryOf(r, v) == EntryOf(c, v)
    ensures wasInChannel == isInChannel ==> r == c
    ensures !wasInChannel && isInChannel ==> EntryOf(r, u) == EntryOf(c, u).(joinedAt := Some(now))
    ensures wasInChannel && !isInChannel && u in c.vcJoinTime ==>
      EntryOf(r, u) == EntryOf(c, u).(joinedAt := None,
                                      minutes := Some(MinutesOf(c, u) + SessionMinutes(c.vcJoinTime[u], now)))
    ensures wasInChannel && !isInChannel && u !in c.vcJoinTime ==> r == c
  {
    if isInChannel && !wasInChannel then
      c.(vcJoinTime := c.vcJoinTime[u := now])
    else if wasInChannel && !isInChannel && u in c.vcJoinTime then
      c.(vcJoinTime := c.vcJoinTime - {u},
         vcMinutes := c.vcMinutes[u := MinutesOf(c, u) + SessionMinutes(c.vcJoinTime[u], now)])
    else
      c
  }

  /** `u` is a member of one of the guild's voice channels. */
  predicate InVoice(channels: seq<seq<UserId>>, u: UserId)
  {
    exists i :: 0 <= i < |channels| && u in channels[i]
  }

  /** The members of the first channels, gathered channel by channel. */
  function Members(channels: seq<seq<UserId>>): (s: set<UserId>)
    ensures forall u :: u in s <==> InVoice(channels, u)
    decreases |channels|
  {
    if channels == [] then {}
    else
      var init := channels[..|channels| - 1];
      var last := channels[|channels| - 1];
      var s := Members(init) + set u | u in last;
      assert forall u :: InVoice(init, u) ==> InVoice(channels, u) by {
        forall u | InVoice(init, u) ensures InVoice(channels, u) {
          var i :| 0 <= i < |init| && u in init[i];
          assert channels[i] == init[i];
        }
      }
      assert forall u :: InVoice(channels, u) ==> u in s by {
        forall u | InVoice(channels, u) ensures u in s {
          var i :| 0 <= i < |channels| && u in channels[i];
          if i < |init| { assert init[i] == channels[i]; }
        }
      }
      s
  }

  /**
   * The tracker right after a giveaway starts: all three maps emptied, then
   * a session stamped `now` opened for every member present in one of the
   * guild's voice channels.
   */
  function WindowStart(channels: seq<seq<UserId>>, now: Timestamp): (r: Counters)
    ensures r.messageCount == map[] && r.vcMinutes == map[]
    ensures forall u :: u in r.vcJoinTime <==> InVoice(channels, u)
    ensures forall u :: u in r.vcJoinTime ==> r.vcJoinTime[u] == now
  {
    Counters(map[], map u | u in Members(channels) :: now, map[])
  }

  /** The events the tracker consumes, in delivery order. */
  datatype Event =
    | Message(author: UserId, isBot: bool)
    | VoiceStateUpdate(member: UserId, wasInChannel: bool, isInChannel: bool, at: Timestamp)

  function Apply(c: Counters, e: Event): Counters
  {
    match e
    case Message(a, b) => AfterMessage(c, a, b)
    case VoiceStateUpdate(u, w, i, t) => AfterVoiceStateUpdate(c, u, w, i, t)
  }

  function Run(c: Counters, es: seq<Event>): Counters
    decreases |es|
  {
    if es == [] then c else Run(Apply(c, es[0]), es[1..])
  }

  /** No open session started later than `t`. */
  ghost predicate SessionsStartedBy(c: Counters, t: Timestamp)
  {
    forall u :: u in c.vcJoinTime ==> c.vcJoinTime[u] <= t
  }

  /** The voice events of `es` carry non-decreasing times, none before `t`. */
  predicate Chronological(es: seq<Event>, t: Timestamp)
    decreases |es|
  {
    es == [] ||
    (var t' := if es[0].VoiceStateUpdate? then es[0].at else t;
     t <= t' && Chronological(es[1..], t'))
  }

  /** `e` does not take `u` out of voice. */
  predicate NotALeaveBy(e: Event, u: UserId)
  {
    !(e.VoiceStateUpdate? && e.member == u && e.wasInChannel && !e.isInChannel)
  }

  lemma StepKeepsMinutes(c: Counters, e: Event, t: Timestamp, t': Timestamp, u: UserId)
    requires SessionsStartedBy(c, t)
    requires t' == (if e.VoiceStateUpdate? then e.at else t) && t <= t'
    ensures SessionsStartedBy(Apply(c, e), t')
    ensures MinutesOf(Apply(c, e), u) >= MinutesOf(c, u)
  {
  }

  /**
   * With events in time order and no session opened in the future, no
   * user's accumulated voice minutes ever decrease.
   */
  lemma {:induction false} VoiceMinutesNeverDecrease(c: Counters, es: seq<Event>, t: Timestamp, u: UserId)
    requires SessionsStartedBy(c, t)
    requires Chronological(es, t)
    ensures MinutesOf(Run(c, es), u) >= MinutesOf(c, u)
    decreases |es|
  {
    if es != [] {
      var t' := if es[0].VoiceStateUpdate? then es[0].at else t;
      StepKeepsMinutes(c, es[0], t, t', u);
      VoiceMinutesNeverDecrease(Apply(c, es[0]), es[1..], t', u);
    }
  }

  /** Minutes are credited only when a session closes: without a leave by `u`, its minutes stay put. */
  lemma {:induction false} MinutesNeedALeave(c: Counters, es: seq<Event>, u: UserId)
    requires forall i :: 0 <= i < |es| ==> NotALeaveBy(es[i], u)
    ensures MinutesOf(Run(c, es), u) == MinutesOf(c, u)
    decreases |es|
  {
    if es != [] {
      var r := Apply(c, es[0]);
      assert EntryOf(r, u).minutes == Lookup(r.vcMinutes, u);
      assert NotALeaveBy(es[0], u);
      MinutesNeedALeave(r, es[1..], u);
    }
  }

  /**
   * A user with no leave event during the giveaway has no voice minutes at
   * its end.  In particular a member already in voice when the giveaway
   * starts who is still there when it ends gets nothing: sessions open at
   * the end are never credited.
   */
  lemma StayingInVoiceEarnsNothing(channels: seq<seq<UserId>>, now: Timestamp, es: seq<Event>, u: UserId)
    requires forall i :: 0 <= i < |es| ==> NotALeaveBy(es[i], u)
    ensures MinutesOf(Run(WindowStart(channels, now), es), u) == 0.0
  {
    MinutesNeedALeave(WindowStart(channels, now), es, u);
  }
}
