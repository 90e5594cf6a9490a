/**
 The `POST /polls/:pollId/votes` handler as a state machine over three stores: the
 vote records, the per-poll tally scores and the log of published tally events.

 A voter is known by an optional session id (the `sessionId` cookie). For that
 session, a poll and an option, the handler takes one of three paths:
 - a new vote (no session, or no record of this session on this poll): create the
   record, add one to the option's score, publish the new score;
 - a duplicate (the record already names this option): reject, change nothing;
 - a switch (the record names another option): delete the record, take one off the
   old option's score and publish it, then create the new record, add one to the new
   option's score and publish it.
 */
module VoteOnPoll {
  import opened VoteStores

  datatype Option<T> = None | Some(value: T)

  /** The cookie set on the reply when a session id is minted. */
  datatype SessionCookie = SessionCookie(name: string, value: SessionId, path: string, maxAgeSeconds: nat)

  const CookieName := "sessionId"
  const CookiePath := "/"
  const CookieMaxAgeSeconds: nat := 60 * 60 * 24 * 30

  /** What the handler answers: the vote was recorded under `sessionId` (201, with a new
      cookie when the id was minted); the voter already voted for this option (400); or
      the record store refused the create because the key was taken. */
  datatype Outcome =
    | Created(sessionId: SessionId, setCookie: Option<SessionCookie>)
    | AlreadyVoted
    | CreateRejected

  /** One message on the poll's broadcast channel: the option just adjusted and its
      score after the adjustment. */
  datatype TallyEvent = TallyEvent(poll: PollId, option: OptionId, votes: int)

  /** The session the handler acts on: the cookie's value when it is truthy; an empty
      string counts as no session, as `if (sessionId)` does. */
  function Present(cookie: Option<SessionId>): (r: Option<SessionId>)
    ensures r.Some? <==> cookie.Some? && cookie.value != ""
    ensures r.Some? ==> r == cookie
  {
    if cookie.Some? && cookie.value != "" then cookie else None
  }

  /** The option recorded for `session` on `poll`, when there is a session and a record. */
  function Prior(records: Records, session: Option<SessionId>, poll: PollId): Option<OptionId>
  {
    if session.Some? && (session.value, poll) in records then Some(records[(session.value, poll)]) else None
  }

  class VoteLedger {
    var records: Records
    var counters: Counters
    var events: seq<TallyEvent>

    /** Every score equals the number of records naming that option. */
    ghost predicate Valid()
      reads this
    {
      Consistent(records, counters)
    }

    constructor ()
      ensures records == map[] && counters == map[] && events == []
      ensures Valid()
    {
      records := map[];
      counters := map[];
      events := [];
      EmptyConsistent();
    }

    /** `findUnique` on the (session, poll) key. */
    function FindVote(session: SessionId, poll: PollId): (r: Option<OptionId>)
      reads this
      ensures r.Some? <==> (session, poll) in records
      ensures r.Some? ==> records[(session, poll)] == r.value
    {
      if (session, poll) in records then Some(records[(session, poll)]) else None
    }

    /** `delete` of the record found under `key`. */
    method DeleteVote(key: (SessionId, PollId))
      requires key in records
      modifies this`records
      ensures records == old(records) - {key}
    {
      records := records - {key};
    }

    /** `create` of a record; the unique key refuses a second record for the same
        (session, poll). */
    method CreateVote(key: (SessionId, PollId), option: OptionId) returns (ok: bool)
      modifies this`records
      ensures ok <==> key !in old(records)
      ensures records == if ok then old(records)[key := option] else old(records)
    {
      ok := key !in records;
      if ok {
        records := records[key := option];
      }
    }

    /** `zincrby`: atomically add `delta` to the score and return the score after it. */
    method IncrementBy(poll: PollId, option: OptionId, delta: int) returns (votes: int)
      modifies this`counters
      ensures counters == Bump(old(counters), poll, option, delta)
      ensures votes == Count(old(counters), poll, option) + delta
    {
      counters := Bump(counters, poll, option, delta);
      votes := Count(counters, poll, option);
    }

    /** `publish` on the poll's channel. */
    method Publish(poll: PollId, option: OptionId, votes: int)
      modifies this`events
      ensures events == old(events) + [TallyEvent(poll, option, votes)]
    {
      events := events + [TallyEvent(poll, option, votes)];
    }

    /** The switch's first half: delete the old record, take one off the score of the
        option it named and publish that score. */
    method Retract(key: (SessionId, PollId))
      requires key in records
      modifies this
      ensures records == old(records) - {key}
      ensures counters == Bump(old(counters), key.1, old(records)[key], -1)
      ensures events == old(events) + [TallyEvent(key.1, old(records)[key], Count(counters, key.1, old(records)[key]))]
      ensures old(Valid()) ==> Valid()
    {
      var was := records[key];
      if Valid() {
        DeleteKeepsConsistent(records, counters, key);
      }
      DeleteVote(key);
      var votes := IncrementBy(key.1, was, -1);
      Publish(key.1, was, votes);
    }

    /** Create the record, add one to the score of the option it names and publish that
        score; a create refused by the unique key changes nothing. */
    method Record(key: (SessionId, PollId), option: OptionId) returns (ok: bool)
      modifies this
      ensures ok <==> key !in old(records)
      ensures ok ==>
                && records == old(records)[key := option]
                && counters == Bump(old(counters), key.1, option, 1)
                && events == old(events) + [TallyEvent(key.1, option, Count(old(counters), key.1, option) + 1)]
      ensures !ok ==> records == old(records) && counters == old(counters) && events == old(events)
      ensures old(Valid()) ==> Valid()
    {
      if Valid() && key !in records {
        CreateKeepsConsistent(records, counters, key, option);
      }
      ok := CreateVote(key, option);
      if ok {
        var votes := IncrementBy(key.1, option, 1);
        Publish(key.1, option, votes);
      }
    }

    /** Cast a vote from the session named by `cookie` for `option` of `poll`; `minted`
        is the id a fresh session would get. */
    method CastVote(cookie: Option<SessionId>, minted: SessionId, poll: PollId, option: OptionId)
      returns (outcome: Outcome)
      requires Valid()
      modifies this
      ensures Valid()
      // Duplicate: the record already names this option; nothing changes.
      ensures Prior(old(records), Present(cookie), poll) == Some(option) ==>
                && outcome == AlreadyVoted
                && records == old(records) && counters == old(counters) && events == old(events)
      // Switch: one vote moves from the recorded option to the new one.
      ensures var prior := Prior(old(records), Present(cookie), poll);
              prior.Some? && prior.value != option ==>
                var session, was := Present(cookie).value, prior.value;
                && outcome == Created(session, None)
                && records == old(records)[(session, poll) := option]
                && counters == Bump(Bump(old(counters), poll, was, -1), poll, option, 1)
                && Count(counters, poll, was) == Count(old(counters), poll, was) - 1
                && Count(counters, poll, option) == Count(old(counters), poll, option) + 1
                && events == old(events) + [TallyEvent(poll, was, Count(counters, poll, was)),
                                            TallyEvent(poll, option, Count(counters, poll, option))]
      // First vote of a known session on this poll.
      ensures Present(cookie).Some? && Prior(old(records), Present(cookie), poll).None? ==>
                var session := Present(cookie).value;
                && outcome == Created(session, None)
                && records == old(records)[(session, poll) := option]
                && counters == Bump(old(counters), poll, option, 1)
                && events == old(events) + [TallyEvent(poll, option, Count(old(counters), poll, option) + 1)]
      // No session: vote under the minted id and hand it back in a cookie; the unique
      // key refuses the create if the minted id already voted on this poll.
      ensures Present(cookie).None? && (minted, poll) in old(records) ==>
                && outcome == CreateRejected
                && records == old(records) && counters == old(counters) && events == old(events)
      ensures Present(cookie).None? && (minted, poll) !in old(records) ==>
                && outcome == Created(minted, Some(SessionCookie(CookieName, minted, CookiePath, CookieMaxAgeSeconds)))
                && records == old(records)[(minted, poll) := option]
                && counters == Bump(old(counters), poll, option, 1)
                && events == old(events) + [TallyEvent(poll, option, Count(old(counters), poll, option) + 1)]
      // Whatever the path: a recorded vote leaves exactly the one record for the pair,
      // naming the option; the other records and the other polls' scores are untouched.
      ensures outcome.Created? ==>
                (outcome.sessionId, poll) in records && records[(outcome.sessionId, poll)] == option
      ensures forall k :: k in old(records) && k.1 != poll ==> k in records && records[k] == old(records)[k]
      ensures forall k :: k in records && k.1 != poll ==> k in old(records)
      ensures forall p, o :: p != poll ==> Count(counters, p, o) == Count(old(counters), p, o)
      ensures Present(cookie).None? ==> outcome != AlreadyVoted
      // Each event published by this call reports how many records now name its option.
      ensures forall i :: |old(events)| <= i < |events| ==>
                events[i].poll == poll && events[i].votes == Tally(records, poll, events[i].option)
    {
      var session := Present(cookie);
      if session.Some? {
        var previous := FindVote(session.value, poll);
        if previous.Some? && previous.value != option {
          Retract((session.value, poll));
        } else if previous.Some? {
          return AlreadyVoted;
        }
      }

      var sessionId: SessionId;
      var setCookie: Option<SessionCookie>;
      if session.None? {
        sessionId := minted;
        setCookie := Some(SessionCookie(CookieName, minted, CookiePath, CookieMaxAgeSeconds));
      } else {
        sessionId := session.value;
        setCookie := None;
      }

      var created := Record((sessionId, poll), option);
      if !created {
        return CreateRejected;
      }
      assert records == old(records)[(sessionId, poll) := option];
      outcome := Created(sessionId, setCookie);
    }
  }

  /** A first-time voter votes for `first`, switches to `second`, then submits `second`
      again: a new cookie is issued, then the switch is accepted, then the repeat is
      rejected; the published scores are 1 for `first`, then 0 for `first` and 1 for
      `second`, and the final scores are 0 and 1. */
  method SwitchThenRepeat(minted: SessionId, poll: PollId, first: OptionId, second: OptionId)
    returns (outcomes: seq<Outcome>, log: seq<TallyEvent>, firstVotes: int, secondVotes: int)
    requires minted != ""
    requires first != second
    ensures outcomes == [Created(minted, Some(SessionCookie(CookieName, minted, CookiePath, CookieMaxAgeSeconds))),
                         Created(minted, None),
                         AlreadyVoted]
    ensures log == [TallyEvent(poll, first, 1), TallyEvent(poll, first, 0), TallyEvent(poll, second, 1)]
    ensures firstVotes == 0 && secondVotes == 1
  {
    var ledger := new VoteLedger();
    var a := ledger.CastVote(None, minted, poll, first);
    var b := ledger.CastVote(Some(minted), minted, poll, second);
    var c := ledger.CastVote(Some(minted), minted, poll, second);
    outcomes := [a, b, c];
    log := ledger.events;
    firstVotes := Count(ledger.counters, poll, first);
    secondVotes := Count(ledger.counters, poll, second);
  }
}
