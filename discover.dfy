/**
 * The discovery actor (src/discover.rs): joining a chat group by publishing an
 * offer and a demand on the market, and one discovery pass that polls every
 * group subscription and turns each proposal into a `NewUser` notification.
 *
 * The market is not modelled: each publish and each poll outcome is an input
 * of the handler that awaits it.
 */
module Discover {
  import opened Wrappers

  /** Property names under which a chat participant advertises itself. */
  const MeKey: string := "yachat.talk.me"
  const GroupKey: string := "yachat.talk.group"

  /** The long-poll wait (seconds) and batch bound handed to every collect call. */
  const CollectTimeout: real := 4.0
  const CollectMaxEvents: nat := 20

  /** The textual form of a node id. */
  type NodeId = string

  /** An opaque handle of the actor that receives `NewUser` notifications. */
  datatype Recipient = Recipient(actor: nat)

  /** One equality clause of a market constraint expression. */
  datatype Constraint = Equals(key: string, value: string)

  /** A flat property bag: every property of a chat offer is a string. */
  type Properties = map<string, string>

  /** What an offer or a demand carries: properties and a constraint string. */
  datatype Posting = Posting(properties: Properties, constraints: string)

  /** A publish request sent to the market. */
  datatype Publication = PublishOffer(offer: Posting) | PublishDemand(demand: Posting)

  datatype MarketError = MarketError(reason: string)

  /** What the market answers to a subscribe call. */
  datatype PublishOutcome = Published(subscriptionId: string) | PublishFailed(error: MarketError)

  /** An event collected from a demand subscription. */
  datatype Event =
    | ProposalEvent(issuer: Option<NodeId>, props: Properties)
    | PropertyQueryEvent

  /** What the market answers to a collect call. */
  datatype PollOutcome = Collected(events: seq<Event>) | PollFailed(error: MarketError)

  /** A collect request: subscription, long-poll wait and batch bound. */
  datatype CollectCall = CollectCall(subscription: string, timeout: real, maxEvents: nat)

  /** The notification that a user was discovered in a group. */
  datatype NewUser = NewUser(group: string, address: string, user: string)

  /** A `NewUser` sent to a recipient. */
  datatype Notification = Notification(target: Recipient, message: NewUser)

  /** The request to join a group under a display name. */
  datatype InitChatGroup = InitChatGroup(me: string, group: string, notify: Recipient)

  /** A joined group: the demand's subscription id, the group, whom to notify. */
  datatype GroupSubscription = GroupSubscription(subscription: string, group: string, notify: Recipient)

  // ------------------------------------------------------------------
  // Offer and demand properties
  // ------------------------------------------------------------------

  /** The text of a constraint clause, in the market's filter syntax. */
  function ConstraintText(c: Constraint): string
  {
    "(" + c.key + "=" + c.value + ")"
  }

  /** Whether a property bag meets a constraint clause. */
  predicate Satisfies(props: Properties, c: Constraint)
  {
    c.key in props && props[c.key] == c.value
  }

  /**
   * The property bag and constraint of a participant `me` in `group`: exactly
   * the two chat properties, and a constraint asking for the same group.
   */
  function DiscoveryProperties(me: string, group: string): (r: (Properties, Constraint))
    ensures r.0.Keys == {MeKey, GroupKey} && |r.0| == 2
    ensures r.0[MeKey] == me && r.0[GroupKey] == group
    ensures r.1 == Equals(GroupKey, group)
    ensures Satisfies(r.0, r.1)
  {
    (map[MeKey := me, GroupKey := group], Equals(GroupKey, group))
  }

  /** The posting used for both the offer and the demand of a join. */
  function GroupPosting(me: string, group: string): Posting
  {
    var (props, c) := DiscoveryProperties(me, group);
    Posting(props, ConstraintText(c))
  }

  /** The posting of one participant matches another's constraint exactly when their groups agree. */
  lemma PostingsMatchIffSameGroup(me: string, group: string, me': string, group': string)
    ensures Satisfies(DiscoveryProperties(me', group').0, DiscoveryProperties(me, group).1) <==> group' == group
  {
  }

  /** Distinct groups give distinct constraint strings: the text identifies the group. */
  lemma {:induction false} ConstraintTextInjective(c: Constraint, d: Constraint)
    requires c.key == d.key
    requires ConstraintText(c) == ConstraintText(d)
    ensures c.value == d.value
  {
    var s := ConstraintText(c);
    var t := ConstraintText(d);
    var n := |"(" + c.key + "="|;
    assert s[n..|s| - 1] == c.value;
    assert t[n..|t| - 1] == d.value;
  }

  // ------------------------------------------------------------------
  // One event, one batch, one pass
  // ------------------------------------------------------------------

  /**
   * The `NewUser` an event of `group` yields, if any: a property query, a
   * proposal without an issuer and a proposal without the display name are
   * all skipped.
   */
  function ParseEvent(group: string, e: Event): Option<NewUser>
  {
    match e
    case PropertyQueryEvent => None
    case ProposalEvent(issuer, props) =>
      if issuer.None? then None
      else if MeKey !in props then None
      else Some(NewUser(group, issuer.value, props[MeKey]))
  }

  /** The notifications sent for one event of `sub`'s batch. */
  function EventNotifications(sub: GroupSubscription, e: Event): seq<Notification>
  {
    match ParseEvent(sub.group, e)
    case None => []
    case Some(u) => [Notification(sub.notify, u)]
  }

  /** The notifications sent while processing a batch of `sub`'s events, in event order. */
  function BatchNotifications(sub: GroupSubscription, events: seq<Event>): seq<Notification>
  {
    if events == [] then []
    else BatchNotifications(sub, events[..|events| - 1]) + EventNotifications(sub, events[|events| - 1])
  }

  /** The notifications sent for one subscription, given what its poll returned. */
  function PollNotifications(sub: GroupSubscription, poll: PollOutcome): seq<Notification>
  {
    match poll
    case PollFailed(_) => []
    case Collected(events) => BatchNotifications(sub, events)
  }

  /** One subscription of a pass's snapshot together with what its poll returned. */
  datatype Round = Round(sub: GroupSubscription, poll: PollOutcome)

  /** Pairs the i-th subscription of a snapshot with the i-th poll outcome. */
  function Rounds(subs: seq<GroupSubscription>, polls: seq<PollOutcome>): seq<Round>
    requires |subs| == |polls|
  {
    seq(|subs|, i requires 0 <= i < |subs| => Round(subs[i], polls[i]))
  }

  /** The notifications of one round. */
  function RoundNotifications(r: Round): seq<Notification>
  {
    PollNotifications(r.sub, r.poll)
  }

  /** The notifications of a whole pass, round by round in snapshot order. */
  function PassNotifications(rounds: seq<Round>): seq<Notification>
  {
    if rounds == [] then []
    else PassNotifications(rounds[..|rounds| - 1]) + RoundNotifications(rounds[|rounds| - 1])
  }

  /** The market PropertyQuery event and the two malformed proposals are exactly the skipped events. */
  lemma ParseEventCases(group: string, e: Event)
    ensures ParseEvent(group, e).None? <==>
              e.PropertyQueryEvent? || e.issuer.None? || MeKey !in e.props
    ensures ParseEvent(group, e).Some? ==>
              ParseEvent(group, e).value == NewUser(group, e.issuer.value, e.props[MeKey])
  {
  }

  /** Processing a batch piecewise gives the same notifications as processing it whole. */
  lemma {:induction false} BatchAppend(sub: GroupSubscription, a: seq<Event>, b: seq<Event>)
    ensures BatchNotifications(sub, a + b) == BatchNotifications(sub, a) + BatchNotifications(sub, b)
    decreases |b|
  {
    if b == [] {
      assert a + b == a;
    } else {
      var b' := b[..|b| - 1];
      var last := b[|b| - 1];
      assert (a + b)[..|a + b| - 1] == a + b';
      assert (a + b)[|a + b| - 1] == last;
      BatchAppend(sub, a, b');
    }
  }

  /** A single event's notifications inside a batch, isolated by splitting around it. */
  lemma {:induction false} BatchAround(sub: GroupSubscription, pre: seq<Event>, e: Event, post: seq<Event>)
    ensures BatchNotifications(sub, pre + [e] + post)
         == BatchNotifications(sub, pre) + EventNotifications(sub, e) + BatchNotifications(sub, post)
  {
    BatchAppend(sub, pre + [e], post);
    BatchAppend(sub, pre, [e]);
    assert [e][..0] == [];
  }

  /** A skipped event yields nothing and does not stop the events after it. */
  lemma {:induction false} BatchSkipsInvalid(sub: GroupSubscription, pre: seq<Event>, e: Event, post: seq<Event>)
    requires ParseEvent(sub.group, e).None?
    ensures BatchNotifications(sub, pre + [e] + post)
         == BatchNotifications(sub, pre) + BatchNotifications(sub, post)
  {
    BatchAround(sub, pre, e, post);
  }

  /** A valid proposal yields exactly one notification, in its place in the batch. */
  lemma {:induction false} BatchKeepsValid(sub: GroupSubscription, pre: seq<Event>, e: Event, post: seq<Event>)
    requires e.ProposalEvent? && e.issuer.Some? && MeKey in e.props
    ensures BatchNotifications(sub, pre + [e] + post)
         == BatchNotifications(sub, pre)
            + [Notification(sub.notify, NewUser(sub.group, e.issuer.value, e.props[MeKey]))]
            + BatchNotifications(sub, post)
  {
    BatchAround(sub, pre, e, post);
  }

  /** A batch never yields more notifications than it has events. */
  lemma {:induction false} BatchLength(sub: GroupSubscription, events: seq<Event>)
    ensures |BatchNotifications(sub, events)| <= |events|
    decreases |events|
  {
    if events != [] {
      BatchLength(sub, events[..|events| - 1]);
    }
  }

  /**
   * A notification is sent for a batch exactly when some event of the batch
   * parses to its message; it goes to the subscription's recipient.
   */
  lemma {:induction false} BatchMembership(sub: GroupSubscription, events: seq<Event>, n: Notification)
    ensures n in BatchNotifications(sub, events) <==>
              n.target == sub.notify &&
              exists k :: 0 <= k < |events| && ParseEvent(sub.group, events[k]) == Some(n.message)
    decreases |events|
  {
    if events != [] {
      var init := events[..|events| - 1];
      var last := events[|events| - 1];
      BatchMembership(sub, init, n);
      if n.target == sub.notify && ParseEvent(sub.group, last) == Some(n.message) {
        assert n in EventNotifications(sub, last);
      }
      if n in BatchNotifications(sub, events) && n !in BatchNotifications(sub, init) {
        assert ParseEvent(sub.group, events[|events| - 1]) == Some(n.message);
      }
      if exists k :: 0 <= k < |events| && ParseEvent(sub.group, events[k]) == Some(n.message) {
        var k :| 0 <= k < |events| && ParseEvent(sub.group, events[k]) == Some(n.message);
        if k < |init| {
          assert init[k] == events[k];
        }
      }
      forall k | 0 <= k < |init| && ParseEvent(sub.group, init[k]) == Some(n.message)
        ensures ParseEvent(sub.group, events[k]) == Some(n.message)
      {
        assert init[k] == events[k];
      }
    }
  }

  /** Every notification of a batch carries the subscription's group and goes to its recipient. */
  lemma {:induction false} BatchTargetsSubscription(sub: GroupSubscription, events: seq<Event>)
    ensures forall n :: n in BatchNotifications(sub, events) ==>
              n.target == sub.notify && n.message.group == sub.group
  {
    forall n | n in BatchNotifications(sub, events)
      ensures n.target == sub.notify && n.message.group == sub.group
    {
      BatchMembership(sub, events, n);
      var k :| 0 <= k < |events| && ParseEvent(sub.group, events[k]) == Some(n.message);
    }
  }

  /** A pass over a split snapshot is the pass over the first part followed by the second. */
  lemma {:induction false} PassAppend(a: seq<Round>, b: seq<Round>)
    ensures PassNotifications(a + b) == PassNotifications(a) + PassNotifications(b)
    decreases |b|
  {
    if b == [] {
      assert a + b == a;
    } else {
      var b', last := b[..|b| - 1], RoundNotifications(b[|b| - 1]);
      assert (a + b)[..|a + b| - 1] == a + b';
      assert (a + b)[|a + b| - 1] == b[|b| - 1];
      assert PassNotifications(a + b) == PassNotifications(a + b') + last;
      assert PassNotifications(b) == PassNotifications(b') + last;
      PassAppend(a, b');
    }
  }

  /**
   * The notifications of round `i` sit between those of the earlier and of
   * the later rounds: each subscription is processed on its own.
   */
  lemma {:induction false} PassAround(rounds: seq<Round>, i: nat)
    requires i < |rounds|
    ensures PassNotifications(rounds)
         == PassNotifications(rounds[..i]) + RoundNotifications(rounds[i]) + PassNotifications(rounds[i + 1..])
  {
    var pre, r, post := rounds[..i], rounds[i], rounds[i + 1..];
    assert rounds == (pre + [r]) + post;
    assert [r][..0] == [];
    calc {
      PassNotifications(rounds);
      PassNotifications((pre + [r]) + post);
      { PassAppend(pre + [r], post); }
      PassNotifications(pre + [r]) + PassNotifications(post);
      { PassAppend(pre, [r]); }
      (PassNotifications(pre) + PassNotifications([r])) + PassNotifications(post);
    }
    assert PassNotifications([r]) == RoundNotifications(r);
  }

  /**
   * A failed poll yields nothing for its subscription, and the subscriptions
   * after it are still processed.
   */
  lemma {:induction false} PassIsolatesFailedPoll(rounds: seq<Round>, i: nat)
    requires i < |rounds| && rounds[i].poll.PollFailed?
    ensures PassNotifications(rounds) == PassNotifications(rounds[..i]) + PassNotifications(rounds[i + 1..])
  {
    PassAround(rounds, i);
  }

  /** A successful poll contributes exactly its batch's notifications, in the subscription's place. */
  lemma {:induction false} PassKeepsCollectedBatch(rounds: seq<Round>, i: nat)
    requires i < |rounds| && rounds[i].poll.Collected?
    ensures PassNotifications(rounds)
         == PassNotifications(rounds[..i])
            + BatchNotifications(rounds[i].sub, rounds[i].poll.events)
            + PassNotifications(rounds[i + 1..])
  {
    PassAround(rounds, i);
  }

  /**
   * A pass sends a notification exactly when some round collected a batch
   * that sends it.
   */
  lemma {:induction false} PassMembership(rounds: seq<Round>, n: Notification)
    ensures n in PassNotifications(rounds) <==>
              exists i :: 0 <= i < |rounds| && n in RoundNotifications(rounds[i])
    decreases |rounds|
  {
    if rounds != [] {
      var m := |rounds| - 1;
      var init := rounds[..m];
      PassMembership(init, n);
      if exists i :: 0 <= i < |rounds| && n in RoundNotifications(rounds[i]) {
        var i :| 0 <= i < |rounds| && n in RoundNotifications(rounds[i]);
        if i < m {
          assert init[i] == rounds[i];
        }
      }
      forall i | 0 <= i < m && n in RoundNotifications(init[i])
        ensures n in RoundNotifications(rounds[i])
      {
        assert init[i] == rounds[i];
      }
    }
  }

  // ------------------------------------------------------------------
  // The actor
  // ------------------------------------------------------------------

  /** The discovery actor: the groups it has joined, in joining order. */
  class Discovery {
    var subscriptions: seq<GroupSubscription>

    /** A fresh actor has joined no group. */
    constructor ()
      ensures subscriptions == []
    {
      subscriptions := [];
    }

    /**
     * Joins `msg.group`: publishes the offer, then (only if that succeeded) the
     * demand, both built from the same properties and constraint. The
     * subscription is kept only when both publishes succeed, and it holds the
     * demand's id. Returns the result and the publications attempted, in order.
     */
    method HandleInitChatGroup(msg: InitChatGroup, offerOutcome: PublishOutcome, demandOutcome: PublishOutcome)
      returns (r: Result<(), MarketError>, attempts: seq<Publication>)
      modifies this
      ensures var p := GroupPosting(msg.me, msg.group);
              && |attempts| >= 1 && attempts[0] == PublishOffer(p)
              && (offerOutcome.PublishFailed? ==> attempts == [PublishOffer(p)])
              && (offerOutcome.Published? ==> attempts == [PublishOffer(p), PublishDemand(p)])
      ensures offerOutcome.PublishFailed? ==>
                r == Failure(offerOutcome.error) && subscriptions == old(subscriptions)
      ensures offerOutcome.Published? && demandOutcome.PublishFailed? ==>
                r == Failure(demandOutcome.error) && subscriptions == old(subscriptions)
      ensures offerOutcome.Published? && demandOutcome.Published? ==>
                && r == Success(())
                && subscriptions == old(subscriptions)
                     + [GroupSubscription(demandOutcome.subscriptionId, msg.group, msg.notify)]
    {
      var (properties, constraints) := DiscoveryProperties(msg.me, msg.group);
      var offer := Posting(properties, ConstraintText(constraints));
      var demand := Posting(properties, ConstraintText(constraints));
      attempts := [PublishOffer(offer)];
      var result: Result<string, MarketError>;
      if offerOutcome.PublishFailed? {
        result := Failure(offerOutcome.error);
      } else {
        attempts := attempts + [PublishDemand(demand)];
        result := match demandOutcome
          case Published(id) => Success(id)
          case PublishFailed(e) => Failure(e);
      }
      match result {
        case Success(subscription) =>
          subscriptions := subscriptions + [GroupSubscription(subscription, msg.group, msg.notify)];
          r := Success(());
        case Failure(e) =>
          r := Failure(e);
      }
    }

    /**
     * One discovery pass over a snapshot of the subscriptions, the i-th poll
     * answered with `polls[i]`. Every subscription is collected from, in
     * order; a failed poll moves on to the next subscription; each valid
     * proposal is sent as a `NewUser` to the subscription's recipient. The
     * pass always succeeds and re-arms itself; it changes no field.
     */
    method HandleDiscoverUsers(polls: seq<PollOutcome>)
      returns (r: Result<(), ()>, collects: seq<CollectCall>, sent: seq<Notification>, rearmed: bool)
      requires |polls| == |subscriptions|
      ensures r == Success(()) && rearmed
      ensures |collects| == |subscriptions|
      ensures forall i :: 0 <= i < |collects| ==>
                collects[i] == CollectCall(subscriptions[i].subscription, CollectTimeout, CollectMaxEvents)
      ensures sent == PassNotifications(Rounds(subscriptions, polls))
    {
      var subs := subscriptions;
      ghost var rounds := Rounds(subs, polls);
      collects, sent := [], [];
      var i := 0;
      while i < |subs|
        invariant 0 <= i <= |subs|
        invariant |collects| == i
        invariant forall k :: 0 <= k < i ==>
                    collects[k] == CollectCall(subs[k].subscription, CollectTimeout, CollectMaxEvents)
        invariant sent == PassNotifications(rounds[..i])
      {
        var sub := subs[i];
        collects := collects + [CollectCall(sub.subscription, CollectTimeout, CollectMaxEvents)];
        assert rounds[..i + 1][..i] == rounds[..i];
        match polls[i] {
          case PollFailed(_) =>
            // logged, then a fixed back-off; the next subscription is polled
          case Collected(events) =>
          var j := 0;
          while j < |events|
            invariant 0 <= j <= |events|
            invariant sent == PassNotifications(rounds[..i]) + BatchNotifications(sub, events[..j])
          {
            assert events[..j + 1][..j] == events[..j];
            match ParseEvent(sub.group, events[j]) {
              case None =>
                // the malformed event is logged and skipped
              case Some(user) =>
                // the send's outcome only decides whether an error is logged
                sent := sent + [Notification(sub.notify, user)];
            }
            j := j + 1;
          }
          assert events[..j] == events;
        }
        i := i + 1;
      }
      assert rounds[..i] == rounds;
      r, rearmed := Success(()), true;
    }
  }
}
