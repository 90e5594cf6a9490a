# Vote ledger of the polls service

This project models the vote handler of a live-polls service (`POST /polls/:pollId/votes`).
A voter has an optional session id, carried in the `sessionId` cookie. A vote for one option of a poll takes one of three paths:

- **New vote.** There is no session, or the session has no record on this poll. The handler creates the record, adds one to the option's score and publishes the new score.
- **Duplicate.** The session's record already names this option. The handler answers 400 "User already voted on this poll" and changes nothing.
- **Switch.** The session's record names another option. The handler deletes that record, takes one off the old option's score and publishes it. Then it creates the new record, adds one to the new option's score and publishes that.

The three stores appear as fields of the class `VoteOnPoll.VoteLedger`:

- `records`: the vote table, a map keyed by (session, poll) that gives the chosen option. The table's unique key on session id and poll id becomes the map key.
- `counters`: the per-poll sorted sets, a map from (poll, option) to a signed score. A missing member reads as 0.
- `events`: the messages published on the polls' broadcast channel, in publication order. Each message gives the option and its score after the change.

Every store call of the handler is a small function or method: `FindVote`, `DeleteVote`, `CreateVote`, `IncrementBy` and `Publish`.
`CastVote` runs them in the handler's order and states the result of each path.
The random UUID for a new session is a parameter (`minted`).

The invariant is `VoteStores.Consistent`: every score equals the number of records that name that option of that poll.
It holds because each record `create` is paired with a +1 and each `delete` with a -1.
`CastVote` requires the invariant and preserves it on every path.
The lemmas `CreateKeepsConsistent` and `DeleteKeepsConsistent` carry that proof.

What the code does on its edge paths, and the model with it:
- A new vote publishes one event and a switch publishes two.
- A create refused by the unique key is not retried: the exception propagates, and the model returns `CreateRejected` with no state change. In a sequential run this can only happen when a freshly minted id already has a record on the poll; the model keeps that case instead of assuming the new id is unused.
- `if (sessionId)` is a truthiness test, so an empty cookie counts as no session (`Present`).

## Model

| member | source | states |
|---|---|---|
| VoteStores.Bump | src/http/routes/vote-on-poll.ts:78 | an atomic increment changes the score of the named (poll, option) by exactly `delta`; every other score, and every other key's presence, stays as it was |
| VoteStores.TallyAfterCreate | src/http/routes/vote-on-poll.ts:70-76 | creating a record under an unused (session, poll) key adds exactly one to the number of records naming its option of its poll, and changes no other count |
| VoteStores.TallyAfterDelete | src/http/routes/vote-on-poll.ts:37-41 | deleting an existing record removes exactly one from the number of records naming the option it held, and changes no other count |
| VoteStores.CreateKeepsConsistent | src/http/routes/vote-on-poll.ts:70-78 | a create paired with `zincrby(poll, 1, option)` keeps every score equal to the number of records naming it |
| VoteStores.DeleteKeepsConsistent | src/http/routes/vote-on-poll.ts:37-47 | a delete paired with `zincrby(poll, -1, oldOption)` keeps every score equal to the number of records naming it |
| VoteOnPoll.Present | src/http/routes/vote-on-poll.ts:21-23 | the handler acts on the cookie's session exactly when the cookie is present and non-empty |
| VoteOnPoll.VoteLedger.FindVote | src/http/routes/vote-on-poll.ts:24-31 | the lookup by the (session, poll) unique key finds a record exactly when one exists, and returns the option it names |
| VoteOnPoll.VoteLedger.DeleteVote | src/http/routes/vote-on-poll.ts:37-41 | the found record is removed and no other record changes |
| VoteOnPoll.VoteLedger.CreateVote | src/http/routes/vote-on-poll.ts:70-76 | the create succeeds exactly when no record exists for (session, poll); on success that key alone changes, and on refusal nothing changes |
| VoteOnPoll.VoteLedger.IncrementBy | src/http/routes/vote-on-poll.ts:43-47 | `zincrby` changes only the named score, by `delta`, and returns the score after the change |
| VoteOnPoll.VoteLedger.Publish | src/http/routes/vote-on-poll.ts:49-52 | one event (poll, option, votes) is appended to the log; earlier events are kept in order |
| VoteOnPoll.VoteLedger.Retract | src/http/routes/vote-on-poll.ts:37-52 | the first half of a switch removes the old record, lowers the old option's score by one, publishes that lowered score, and keeps the invariant |
| VoteOnPoll.VoteLedger.Record | src/http/routes/vote-on-poll.ts:70-83 | the create raises the option's score by one and publishes the raised score, and keeps the invariant; a create refused by the unique key changes nothing |
| VoteOnPoll.VoteLedger.CastVote | src/http/routes/vote-on-poll.ts:21-85 | a duplicate returns `AlreadyVoted` and leaves records, scores and log unchanged. A switch moves one vote: old score −1, new score +1, two events with the old option first, and the record now names the new option. A first vote raises only that option's score by one and appends one event. With no session the call mints the id, sets the `sessionId` cookie (path "/", max age 30 days), never reports a duplicate, and is refused only if the minted key is taken. After any `Created`, exactly one record exists for the pair and it names the option. Other polls' records and scores are untouched. Every new event reports the number of records now naming its option. The score/record invariant is preserved |
| VoteOnPoll.SwitchThenRepeat | src/http/routes/vote-on-poll.ts:21-85 | a first-time voter votes A, switches to B, then submits B again. The first call issues a cookie, the second is accepted, the third is rejected as a duplicate. The events are (A, 1), (A, 0), (B, 1), and the final scores are A = 0 and B = 1 |

## Left out

- Request validation: pollId and pollOptionId are parsed as UUIDs (vote-on-poll.ts:10-19). The model treats ids as opaque strings that are already valid.
- Transport: Fastify routing, the 201/400 status codes and the reply bodies. These become the `Created` and `AlreadyVoted` outcomes. The cookie's `signed` and `httpOnly` flags are not modelled. Name, value, path and max age are kept.
- What the client receives when a refused create throws. The code leaves this to the framework's error handler, so the model only records that no state changed.
- Record ids: the code deletes the found record by its id. Because of the unique key that record is the one under (session, poll), so the model deletes by that key.
- Store failures and partial failures: either store may be unreachable, and the two stores are not updated atomically together. The model is sequential and every store call succeeds, except a create refused by the unique key.
- Concurrency: two requests from the same session can race past the lookup. Protection against that comes from the database's unique key, not from this handler.
- SwitchThenRepeat: assumes the cookie a returning client presents is exactly the minted id. The model's `cookie` parameter is the value the handler reads from `request.cookies` (vote-on-poll.ts:21), which is never unsigned, while the cookie is set with `signed: true` (vote-on-poll.ts:65). If the value read back differs from the minted id, the second call of the scenario creates a second record instead of switching, and both options end with one vote. How the cookie library encodes and decodes signed values is not part of this model.
- `randomUUID` is not modelled. The new id is the `minted` parameter, and it is assumed to be non-empty in `SwitchThenRepeat`.
- Redis scores are floating-point numbers converted with `Number(...)`. They are modelled as unbounded integers, which match for any realistic number of votes.
- The WebSocket results endpoint (src/http/ws/poll-results.ts) and the pub/sub fan-out registry behind `voting.subscribe`/`voting.publish` are left out. The registry's source (src/utils/voteing-pub-sub) is not part of this model, and the endpoint only forwards messages to sockets. Publishing is modelled as appending to the `events` log; delivery to observers is not modelled.
