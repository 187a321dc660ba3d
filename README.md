# yachat discovery and inbound chat, modelled in Dafny

yachat is a group chat client for a decentralised market network. Peers of one
group find each other through the market's offer/demand matching, not through
a central registry. This project models two parts of its core:

- **The discovery actor** (`src/discover.rs`, module `Discover`).
  - `discovery_properties` builds the property bag and the constraint that a
    participant publishes.
  - `InitChatGroup` joins a group. It publishes an offer, then a demand. It keeps a
    `GroupSubscription` only if both publishes succeed.
  - `DiscoverUsers` makes one pass over a snapshot of the subscriptions. It
    collects each subscription's events and turns every valid proposal into a
    `NewUser` notification. Then it re-arms itself.
- **The chat actor's inbound handler** (`src/chat.rs`, module `Chat`). It turns
  each message of an inbound `SendText` envelope into one console line
  `<ts> <caller>> <content>`. It always answers with success.

`Wrappers` holds `Option` and `Result`. `Protocol` holds the plain data types of
`src/protocol.rs`.

How the environment is modelled:

- **The market.** The handlers do not call the market; its answers are inputs.
  `HandleInitChatGroup` takes the outcome of the offer publish and of the demand
  publish. It returns the publications it attempted, in order.
  `HandleDiscoverUsers` takes one poll outcome per subscription of the snapshot.
  It returns the collect calls it made, with the constants 4.0 s and 20 events.
- **Notifications.** A `NewUser` sent to a recipient is recorded as a
  `Notification` in the returned sequence, in sending order.
- **Re-arming.** The pass sending `DiscoverUsers` to itself is the returned flag
  `rearmed`.
- **Console output.** The lines the chat handler prints are returned as a
  sequence.
- **Timestamps.** Rendering a UTC timestamp in local time is the function
  parameter `renderTs`.

The specification of each pass is a set of pure functions:

- `ParseEvent`: one event to an optional `NewUser`;
- `BatchNotifications`: one batch;
- `PassNotifications`: all rounds of a pass, where a `Round` is a subscription
  paired with its poll outcome.

The lemmas about these functions carry the properties. The pass method is proved
equal to them.

Behaviour of the code worth knowing:

- On a poll failure the code logs, waits, and moves on to the *next*
  subscription. It does not retry the same one.
- There is no self-filter. A proposal carrying the local user's own name is
  notified like any other.
- Joining the same group twice keeps two subscriptions. Nothing enforces one
  subscription per group.
- The inbound handler rejects no caller: it never answers an error. It
  prints the caller identity from the envelope, not a display name from a
  registry. It uses the format `<ts> <caller>> <content>`.
- There is no peer registry, no delivery queue, no resending and no `leave()`.

## Model

| member | source | states |
|---|---|---|
| `Discover.DiscoveryProperties` | src/discover.rs:175-183 | the property bag has exactly the two keys `yachat.talk.me` (= me) and `yachat.talk.group` (= group); the constraint is `yachat.talk.group == group`, and the bag meets its own constraint |
| `Discover.PostingsMatchIffSameGroup` | src/discover.rs:175-183 | one participant's properties meet another's constraint exactly when their groups are equal, whatever the names |
| `Discover.ConstraintTextInjective` | src/discover.rs:181 | two constraint strings on the same key are equal only if their values are, so the published constraint text identifies the group |
| `Discover.Discovery.constructor` | src/discover.rs:52-62 | a new discovery actor holds no subscription |
| `Discover.Discovery.HandleInitChatGroup` | src/discover.rs:68-103 | the offer is published first; the demand only if the offer succeeded; both use the same properties and constraint string; a failed offer returns its error and leaves `subscriptions` unchanged; a failed demand returns its error and leaves `subscriptions` unchanged; when both succeed the answer is Ok and exactly one entry is appended at the end, holding the demand's subscription id and the message's group and notify target |
| `Discover.ParseEventCases` | src/discover.rs:132-151 | an event is skipped exactly when it is a property query, a proposal without an issuer, or a proposal without `yachat.talk.me`; otherwise it yields NewUser(group, issuer id, that value) |
| `Discover.BatchAppend` | src/discover.rs:130-166 | processing a batch is a concatenation of per-event results: the notifications of a + b are those of a followed by those of b |
| `Discover.BatchAround` | src/discover.rs:130-166 | the notifications of one event of a batch sit between those of the events before it and those of the events after it |
| `Discover.BatchSkipsInvalid` | src/discover.rs:131-137 | an event that does not parse adds no notification and the events after it are still processed |
| `Discover.BatchKeepsValid` | src/discover.rs:141-165 | a valid proposal adds exactly one notification in its own place in the batch, to the subscription's recipient, carrying the subscription's group, the issuer id and the display name; the send's outcome does not stop the batch |
| `Discover.BatchLength` | src/discover.rs:130-166 | a batch sends at most one notification per event |
| `Discover.BatchMembership` | src/discover.rs:130-166 | a notification is sent for a batch if and only if it goes to the subscription's recipient and some event of the batch parses to its message |
| `Discover.BatchTargetsSubscription` | src/discover.rs:147-159 | every notification of a batch goes to the subscription's notify target and names the subscription's group |
| `Discover.PassAppend` | src/discover.rs:115-167 | a pass over a split snapshot sends the first part's notifications followed by the second part's |
| `Discover.PassAround` | src/discover.rs:115-167 | the notifications of subscription i come after those of all earlier subscriptions and before those of all later ones |
| `Discover.PassIsolatesFailedPoll` | src/discover.rs:116-128 | a failed poll contributes no notification, and the subscriptions after it still contribute theirs |
| `Discover.PassKeepsCollectedBatch` | src/discover.rs:116-166 | a successful poll contributes exactly its batch's notifications, in its subscription's place |
| `Discover.PassMembership` | src/discover.rs:115-167 | a pass sends a notification if and only if some subscription's collected batch sends it |
| `Discover.Discovery.HandleDiscoverUsers` | src/discover.rs:109-172 | the pass changes no field; every subscription of the snapshot is collected from once, in order, with wait 4.0 and bound 20, failed polls included; the notifications sent are the pass specification over the snapshot and its poll outcomes; the answer is always Ok and the pass re-arms itself |
| `Chat.FormatLineParts` | src/chat.rs:39-44 | a line is the rendered timestamp, a space, the caller, `"> "` and the content, each verbatim at a fixed position |
| `Chat.FormatLineInjective` | src/chat.rs:39-44 | with the timestamp and caller fixed, different contents give different lines |
| `Chat.Chat.constructor` | src/chat.rs:27-29 | the chat actor starts with the given user name |
| `Chat.Chat.HandleSendText` | src/chat.rs:35-47 | one line per message, equal in number and in the same order; line i is message i's rendered timestamp, the envelope's caller and message i's content; the reply is Ok for every caller; no field of the actor changes (no modifies clause) |

## Left out

- `Discover.PostingsMatchIffSameGroup`: market matching is modelled as exact string equality of the constrained property (`Satisfies`). The market's filter language, including wildcard or presence patterns such as a group value `*`, is not modelled, so a group name holding filter metacharacters may match more widely than this lemma says.
- Actor plumbing is not modelled: actor startup, the delayed first `DiscoverUsers`, `Context`, `ActorResponse`, `into_actor`, mailbox errors and `Chat`'s `started`/`stopped` service-bus binding. This is framework glue with no logic of its own.
- `Discovery::new` is not modelled beyond its empty subscription list. Building the market API clients from the command-line options is I/O setup.
- The 4-second back-off after a failed poll is not modelled, because time is not modelled. The collect wait of 4.0 s and the batch bound of 20 are recorded as arguments of each collect call.
- Logging and `println!` are not modelled as side effects. Log calls are no-ops. Printed lines are returned.
- The outcome of each `NewUser` send is not an input. It only decides whether an error is logged, so the model records the sends that were attempted.
- JSON handling is not modelled. A property bag is a flat map from strings to strings, and reading the display name is a lookup of `yachat.talk.me`. The `expand`/`pointer_typed` failure for a display name that is present but not a JSON string cannot arise in this model.
- Node ids are represented by their text, so the `to_string` of the issuer id is the identity.
- The exact text of a rendered constraint comes from an external library that is not part of this model. The model assumes the filter form `(yachat.talk.group=<group>)`. The lemmas need only that the text is built from the key and the value.
- Rendering a timestamp in the local time zone is the abstract parameter `renderTs`. Time zones are not modelled.
- `src/main.rs` is not modelled (argument parsing, logger setup, the interrupt wait, the shutdown call). It refers to a `Chat::new(args)` and a `Shutdown` message that the modelled files do not define.
- `src/protocol.rs` has no operations. Its types appear as plain datatypes in `Protocol`.
