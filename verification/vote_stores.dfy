/**
 The two stores the vote handler writes, seen as plain values, and the bookkeeping
 invariant that ties them together.

 - The vote records (a table with a unique key on session id and poll id) are a map
   from (session, poll) to the option that vote names.
 - The tally (one sorted set per poll, one member per option) is a map from
   (poll, option) to a signed score; a member that is not there reads as 0.

 The invariant `Consistent` says that every score equals the number of records
 naming that option of that poll. The handler keeps it by pairing every record
 `create` with a +1 and every record `delete` with a -1.
 */
module VoteStores {

  type SessionId = string
  type PollId = string
  type OptionId = string

  type Records = map<(SessionId, PollId), OptionId>
  type Counters = map<(PollId, OptionId), int>

  /** The score of `option` in the sorted set of `poll`; an absent member scores 0. */
  function Count(counters: Counters, poll: PollId, option: OptionId): int
  {
    if (poll, option) in counters then counters[(poll, option)] else 0
  }

  /** The counter map after an atomic increment of one member by `delta`. */
  function Bump(counters: Counters, poll: PollId, option: OptionId, delta: int): (r: Counters)
    ensures (poll, option) in r
    ensures Count(r, poll, option) == Count(counters, poll, option) + delta
    ensures forall p, o :: (p, o) != (poll, option) ==> Count(r, p, o) == Count(counters, p, o)
    ensures forall k :: k != (poll, option) ==> (k in r <==> k in counters)
  {
    counters[(poll, option) := Count(counters, poll, option) + delta]
  }

  /** The keys of the records that name `option` of `poll`. */
  function Voters(records: Records, poll: PollId, option: OptionId): set<(SessionId, PollId)>
  {
    set k | k in records.Keys && k.1 == poll && records[k] == option
  }

  /** How many records name `option` of `poll`. */
  function Tally(records: Records, poll: PollId, option: OptionId): nat
  {
    |Voters(records, poll, option)|
  }

  /** Every score equals the number of records naming that option. */
  ghost predicate Consistent(records: Records, counters: Counters)
  {
    forall p, o {:trigger Tally(records, p, o)} :: Count(counters, p, o) == Tally(records, p, o)
  }

  /** Creating a record under a key that is not yet used adds one to the tally of the
      option it names, and to no other. */
  lemma TallyAfterCreate(records: Records, key: (SessionId, PollId), option: OptionId, p: PollId, o: OptionId)
    requires key !in records
    ensures Tally(records[key := option], p, o)
         == Tally(records, p, o) + (if key.1 == p && option == o then 1 else 0)
  {
    var before := Voters(records, p, o);
    var after := Voters(records[key := option], p, o);
    assert key !in before;
    if key.1 == p && option == o {
      assert after == before + {key};
    } else {
      assert after == before;
    }
  }

  /** Deleting an existing record takes one off the tally of the option it named, and
      off no other. */
  lemma TallyAfterDelete(records: Records, key: (SessionId, PollId), p: PollId, o: OptionId)
    requires key in records
    ensures Tally(records - {key}, p, o)
         == Tally(records, p, o) - (if key.1 == p && records[key] == o then 1 else 0)
  {
    var before := Voters(records, p, o);
    var after := Voters(records - {key}, p, o);
    if key.1 == p && records[key] == o {
      assert key in before;
      assert after == before - {key};
    } else {
      assert after == before;
    }
  }

  /** The empty stores are consistent. */
  lemma EmptyConsistent()
    ensures Consistent(map[], map[])
  {
  }

  /** A create under a fresh key paired with a +1 on the option it names keeps the
      invariant. */
  lemma CreateKeepsConsistent(records: Records, counters: Counters, key: (SessionId, PollId), option: OptionId)
    requires Consistent(records, counters)
    requires key !in records
    ensures Consistent(records[key := option], Bump(counters, key.1, option, 1))
  {
    var counters' := Bump(counters, key.1, option, 1);
    forall p, o ensures Count(counters', p, o) == Tally(records[key := option], p, o) {
      TallyAfterCreate(records, key, option, p, o);
    }
  }

  /** A delete of an existing record paired with a -1 on the option it named keeps the
      invariant. */
  lemma DeleteKeepsConsistent(records: Records, counters: Counters, key: (SessionId, PollId))
    requires Consistent(records, counters)
    requires key in records
    ensures Consistent(records - {key}, Bump(counters, key.1, records[key], -1))
  {
    var counters' := Bump(counters, key.1, records[key], -1);
    forall p, o ensures Count(counters', p, o) == Tally(records - {key}, p, o) {
      TallyAfterDelete(records, key, p, o);
    }
  }
}
