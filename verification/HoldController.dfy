/** The hold endpoint (booking.controller.ts), one request at a time over the whole
    Redis map, and its place among the runs of the interleaved model of one key. */
module HoldController {
  import opened Common
  import opened Runs
  import opened Text
  import opened HoldIdempotency

  const KEY_PREFIX := "idempotency:booking-hold:"

  function CacheKey(userId: string, idempotencyKey: string): string {
    KEY_PREFIX + userId + ":" + Trim(idempotencyKey)
  }

  /** Two users, or two different keys, never share an entry. */
  lemma CacheKeysDistinct(user1: string, key1: string, user2: string, key2: string)
    requires ':' !in user1 && ':' !in user2
    ensures CacheKey(user1, key1) == CacheKey(user2, key2) <==> user1 == user2 && Trim(key1) == Trim(key2)
  {
    if CacheKey(user1, key1) == CacheKey(user2, key2) {
      var a, b := user1 + ":" + Trim(key1), user2 + ":" + Trim(key2);
      assert CacheKey(user1, key1) == KEY_PREFIX + a && CacheKey(user2, key2) == KEY_PREFIX + b;
      PrefixCancels(KEY_PREFIX, a, b);
      FirstColonSplits(user1, Trim(key1), user2, Trim(key2));
    }
  }

  /** What a request meets: the fate of its Redis calls, and the hold it may make. */
  datatype Fate = Fate(reserve: Reply, hold: HoldOutcome, store: Reply, clear: Reply, read: Reply)

  function Outcome(entry: Option<Record>, fate: Fate): (Option<Record>, Request, seq<nat>) {
    if fate.reserve != Answered then (AfterSetNx(entry, fate.reserve), Refused(RedisUnavailable), [])
    else if entry == None then
      if !fate.hold.Booked? then (AfterDel(Some(Processing), fate.clear), Refused(HoldFailed), [])
      else
        var stored := AfterSet(Some(Processing), fate.hold.response, fate.store);
        if fate.store == Answered then (stored, Returned(fate.hold.response), [fate.hold.response])
        else (AfterDel(stored, fate.clear), Refused(RedisUnavailable), [fate.hold.response])
    else if fate.read != Answered then (entry, Refused(RedisUnavailable), [])
    else if entry.value.Done? then (entry, Returned(entry.value.response), [])
    else (entry, Refused(InProgress), [])
  }

  /** Exactly when an undisturbed request gets each answer, holds seats, and leaves what
      in its entry. */
  lemma OutcomeIff(entry: Option<Record>, fate: Fate)
    ensures var (after, request, made) := Outcome(entry, fate);
            var mine := fate.reserve == Answered && entry == None;
            var taken := fate.reserve == Answered && entry != None;
            && (forall v :: request == Returned(v) <==>
                  || (taken && fate.read == Answered && entry == Some(Done(v)))
                  || (mine && fate.hold == Booked(v) && fate.store == Answered))
            && (request == Refused(InProgress) <==> taken && fate.read == Answered && entry == Some(Processing))
            && (request == Refused(HoldFailed) <==> mine && !fate.hold.Booked?)
            && (request == Refused(RedisUnavailable) <==>
                  || fate.reserve != Answered || (taken && fate.read != Answered)
                  || (mine && fate.hold.Booked? && fate.store != Answered))
            && made == (if mine && fate.hold.Booked? then [fate.hold.response] else [])
    ensures var after := Outcome(entry, fate).0;
            var cleared := !(fate.hold.Booked? && fate.store == Answered) && fate.clear != NotSent;
            after == if entry != None || fate.reserve == NotSent then entry
                     else if fate.reserve == AnswerLost then Some(Processing)
                     else if cleared then None
                     else if fate.hold.Booked? && fate.store != NotSent then Some(Done(fate.hold.response))
                     else Some(Processing)
  {
  }

  /** The calls request r makes in that case. */
  function Script(entry: Option<Record>, fate: Fate, r: nat): seq<Event> {
    if fate.reserve != Answered then [Reserve(r, fate.reserve)]
    else if entry == None then
      if !fate.hold.Booked? then [Reserve(r, Answered), HoldSeats(r, fate.hold), Clear(r, fate.clear)]
      else if fate.store == Answered then [Reserve(r, Answered), HoldSeats(r, fate.hold), Store(r, Answered)]
      else [Reserve(r, Answered), HoldSeats(r, fate.hold), Store(r, fate.store), Clear(r, fate.clear)]
    else [Reserve(r, Answered), Read(r, fate.read)]
  }

  lemma ReservedScript(w: World, fate: Fate, r: nat)
    requires r < |w.requests| && w.requests[r] == Arrived && w.entry == None && fate.reserve == Answered
    ensures var (entry, request, made) := Outcome(w.entry, fate);
            Run(w, Script(w.entry, fate, r)) == World(entry, w.requests[r := request], w.holds + made)
  {
    var w1 := Step(w, Reserve(r, Answered));
    assert w1 == World(Some(Processing), w.requests[r := Reserved], w.holds);
    if !fate.hold.Booked? {
      RunThree(Step, w, Reserve(r, Answered), HoldSeats(r, fate.hold), Clear(r, fate.clear));
      assert Step(w1, HoldSeats(r, fate.hold)) == World(Some(Processing), w.requests[r := Clearing(HoldFailed)], w.holds);
    } else {
      var response := fate.hold.response;
      var w2 := Step(w1, HoldSeats(r, fate.hold));
      assert w2 == World(Some(Processing), w.requests[r := Held(response)], w.holds + [response]);
      if fate.store == Answered {
        RunThree(Step, w, Reserve(r, Answered), HoldSeats(r, fate.hold), Store(r, Answered));
      } else {
        RunFour(Step, w, Reserve(r, Answered), HoldSeats(r, fate.hold), Store(r, fate.store), Clear(r, fate.clear));
      }
    }
  }

  /** An undisturbed request is one particular run of the interleaved model. */
  lemma OutcomeIsARun(w: World, fate: Fate, r: nat)
    requires r < |w.requests| && w.requests[r] == Arrived
    ensures var (entry, request, made) := Outcome(w.entry, fate);
            Run(w, Script(w.entry, fate, r)) == World(entry, w.requests[r := request], w.holds + made)
  {
    if fate.reserve != Answered {
      RunOne(Step, w, Reserve(r, fate.reserve), []);
    } else if w.entry == None {
      ReservedScript(w, fate, r);
    } else {
      RunTwo(Step, w, Reserve(r, Answered), Read(r, fate.read));
      assert Step(w, Reserve(r, Answered)) == World(w.entry, w.requests[r := Reading], w.holds);
    }
  }

  // ---- The services ----

  const HOLD_TTL_SECONDS := 300

  /** A value and when it expires. */
  datatype Stored = Stored(record: Record, until: int)

  class RedisService {
    var entries: map<string, Stored>

    constructor ()
      ensures entries == map[]
    {
      entries := map[];
    }

    /** What a read at a given time finds. */
    function Entry(key: string, now: int): Option<Record>
      reads this
    {
      if key in entries && now < entries[key].until then Some(entries[key].record) else None
    }

    method SetNx(key: string, value: Record, ttlSeconds: int, now: int, reply: Reply) returns (acquired: Option<bool>)
      modifies this
      ensures acquired == if reply == Answered then Some(old(Entry(key, now)) == None) else None
      ensures entries == if reply != NotSent && old(Entry(key, now)) == None
                         then old(entries)[key := Stored(value, now + ttlSeconds * 1000)] else old(entries)
    {
      var free := Entry(key, now) == None;
      if reply != NotSent && free {
        entries := entries[key := Stored(value, now + ttlSeconds * 1000)];
      }
      acquired := if reply == Answered then Some(free) else None;
    }

    method Set(key: string, value: Record, ttlSeconds: int, now: int, reply: Reply) returns (ok: bool)
      modifies this
      ensures ok == (reply == Answered)
      ensures entries == if reply != NotSent then old(entries)[key := Stored(value, now + ttlSeconds * 1000)]
                         else old(entries)
    {
      if reply != NotSent {
        entries := entries[key := Stored(value, now + ttlSeconds * 1000)];
      }
      ok := reply == Answered;
    }

    method Del(key: string, reply: Reply)
      modifies this
      ensures entries == if reply != NotSent then old(entries) - {key} else old(entries)
    {
      if reply != NotSent {
        entries := entries - {key};
      }
    }
  }

  class BookingController {
    const redis: RedisService
    var holds: seq<nat>

    constructor (redis: RedisService)
      ensures this.redis == redis && holds == []
    {
      this.redis, holds := redis, [];
    }

    /** One request at one clock reading.  What it leaves in its entry lives for the
        full five minutes from then; the other entries are left alone. */
    method Hold(userId: string, idempotencyKey: Option<string>, now: int, fate: Fate)
      returns (answer: Result<nat, HoldError>)
      modifies this, redis
      ensures (idempotencyKey.None? || Trim(idempotencyKey.value) == "") ==>
                answer == Err(MissingKey) && redis.entries == old(redis.entries) && holds == old(holds)
      ensures !(idempotencyKey.None? || Trim(idempotencyKey.value) == "") ==>
                var key := CacheKey(userId, idempotencyKey.value);
                var (entry, request, made) := Outcome(old(redis.Entry(key, now)), fate);
                && redis.Entry(key, now) == entry
                && (redis.entries != old(redis.entries) && entry.Some? ==>
                      redis.entries[key] == Stored(entry.value, now + HOLD_TTL_SECONDS * 1000))
                && redis.entries - {key} == old(redis.entries) - {key}
                && holds == old(holds) + made
                && request == match answer
                              case Ok(response) => Returned(response)
                              case Err(error) => Refused(error)
      ensures !(idempotencyKey.None? || Trim(idempotencyKey.value) == "") && fate.reserve == Answered ==>
                var key := CacheKey(userId, idempotencyKey.value);
                var taken := key in old(redis.entries) && now < old(redis.entries)[key].until;
                && (taken && fate.read == Answered ==>
                      && redis.entries == old(redis.entries) && holds == old(holds)
                      && answer == match old(redis.entries)[key].record
                                   case Done(response) => Ok(response)
                                   case Processing => Err(InProgress))
                && (!taken && fate.hold.Booked? && fate.store == Answered ==>
                      && redis.entries == old(redis.entries)[key := Stored(Done(fate.hold.response), now + 300_000)]
                      && holds == old(holds) + [fate.hold.response] && answer == Ok(fate.hold.response))
                && (!taken && !fate.hold.Booked? && fate.clear != NotSent ==>
                      redis.entries == old(redis.entries) - {key} && holds == old(holds) && answer == Err(HoldFailed))
    {
      if idempotencyKey.None? || Trim(idempotencyKey.value) == "" {
        return Err(MissingKey);
      }
      var key := CacheKey(userId, idempotencyKey.value);
      var acquired := redis.SetNx(key, Processing, HOLD_TTL_SECONDS, now, fate.reserve);
      if acquired.None? {
        return Err(RedisUnavailable);
      }
      if !acquired.value {
        if fate.read != Answered {
          return Err(RedisUnavailable);
        }
        var cached := redis.Entry(key, now);
        if cached.Some? && cached.value.Done? {
          return Ok(cached.value.response);
        }
        return Err(InProgress);
      }
      if !fate.hold.Booked? {
        redis.Del(key, fate.clear);
        return Err(HoldFailed);
      }
      var response := fate.hold.response;
      holds := holds + [response];
      var stored := redis.Set(key, Done(response), HOLD_TTL_SECONDS, now, fate.store);
      if !stored {
        redis.Del(key, fate.clear);
        return Err(RedisUnavailable);
      }
      answer := Ok(response);
    }
  }
}
