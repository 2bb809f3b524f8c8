/** The refresh-token service and the API client as the objects the source has, each
    call tied to the step of the interleaved models. */
module RefreshServices {
  import opened Common
  import opened Runs
  import T = RefreshTokens
  import C = RefreshClient

  /** A whole rotation with nothing in between. */
  function RotateOnce(tokens: seq<T.Token>, raw: T.Raw, secret: nat, now: int): (seq<T.Token>, Result<T.Raw, T.Reason>) {
    var verdict := T.Verdict(tokens, raw, now);
    if verdict.Some? || |tokens| <= raw.id then (tokens, Err(if verdict.Some? then verdict.value else T.Unknown))
    else
      var token := tokens[raw.id];
      (tokens[raw.id := token.(revoked := true)]
         + [T.Token(token.user, secret, now + T.TTL_MS, false, token.family, Some(raw.id))],
       Ok(T.Raw(|tokens|, secret)))
  }

  function Answer(result: Result<T.Raw, T.Reason>): T.Rotation {
    match result
    case Ok(raw) => T.Issued(raw)
    case Err(reason) => T.Refused(reason)
  }

  /** An undisturbed rotation is one particular run of the interleaved model. */
  lemma RotateOnceIsARun(w: T.World, u: nat, raw: T.Raw, secret: nat, now: int)
    requires u < |w.rotations| && w.rotations[u] == T.Presented(raw)
    ensures var (tokens, result) := RotateOnce(w.tokens, raw, secret, now);
            T.Run(w, [T.Verify(u, now), T.RevokeRead(u), T.Generate(u, secret, now)]) ==
            T.World(tokens, w.rotations[u := Answer(result)])
  {
    RunThree(T.Step, w, T.Verify(u, now), T.RevokeRead(u), T.Generate(u, secret, now));
    var w1 := T.Step(w, T.Verify(u, now));
    var w2 := T.Step(w1, T.RevokeRead(u));
    if T.Verdict(w.tokens, raw, now) == None {
      assert w2.rotations == w.rotations[u := T.Generating(raw.id, w.tokens[raw.id])];
    } else {
      assert w2 == w1;
    }
  }

  /** A token rotates once: presenting it again is refused as revoked, presenting its
      replacement works until that expires. */
  lemma RotatedOnce(tokens: seq<T.Token>, raw: T.Raw, secret: nat, secret': nat, now: int, later: int)
    requires RotateOnce(tokens, raw, secret, now).1.Ok?
    ensures var (rotated, result) := RotateOnce(tokens, raw, secret, now);
            && RotateOnce(rotated, raw, secret', later) == (rotated, Err(T.AlreadyRevoked))
            && (RotateOnce(rotated, result.value, secret', later).1.Ok? <==> later < now + T.TTL_MS)
  {
    var (rotated, result) := RotateOnce(tokens, raw, secret, now);
    assert rotated[raw.id].revoked;
    assert rotated[result.value.id].expiresAt == now + T.TTL_MS;
  }

  /** Exactly which tokens are exchanged: one that exists, is neither revoked nor expired,
      and comes with its own secret.  Nothing changes for any other. */
  lemma RotatesIff(tokens: seq<T.Token>, raw: T.Raw, secret: nat, now: int)
    ensures var (tokens', result) := RotateOnce(tokens, raw, secret, now);
            && (result.Ok? <==>
                  && raw.id < |tokens| && !tokens[raw.id].revoked && now < tokens[raw.id].expiresAt
                  && tokens[raw.id].secret == raw.secret)
            && (result.Err? ==> tokens' == tokens)
  {
    T.VerdictIff(tokens, raw, now);
  }

  class RefreshTokenService {
    var tokens: seq<T.Token>

    constructor ()
      ensures tokens == []
    {
      tokens := [];
    }

    method Generate(user: nat, secret: nat, now: int, family: nat, parent: Option<nat>) returns (raw: T.Raw)
      modifies this
      ensures raw == T.Raw(|old(tokens)|, secret)
      ensures tokens == old(tokens) + [T.Token(user, secret, now + T.TTL_MS, false, family, parent)]
    {
      raw := T.Raw(|tokens|, secret);
      tokens := tokens + [T.Token(user, secret, now + T.TTL_MS, false, family, parent)];
    }

    method Verify(raw: T.Raw, now: int) returns (result: Result<T.Token, T.Reason>)
      ensures result.Ok? <==> && raw.id < |tokens| && !tokens[raw.id].revoked && now < tokens[raw.id].expiresAt
                              && tokens[raw.id].secret == raw.secret
      ensures result.Ok? ==> raw.id < |tokens| && result.value == tokens[raw.id]
      ensures result.Err? ==> T.Verdict(tokens, raw, now) == Some(result.error)
    {
      if raw.id >= |tokens| {
        return Err(T.Unknown);
      }
      var token := tokens[raw.id];
      if token.revoked {
        return Err(T.AlreadyRevoked);
      }
      if token.expiresAt <= now {
        return Err(T.Expired);
      }
      if token.secret != raw.secret {
        return Err(T.WrongSecret);
      }
      result := Ok(token);
    }

    /** Revokes a row; false when there is none. */
    method Revoke(id: nat) returns (found: bool)
      modifies this
      ensures found == (id < |old(tokens)|)
      ensures tokens == if found then old(tokens)[id := old(tokens)[id].(revoked := true)] else old(tokens)
    {
      found := id < |tokens|;
      if found {
        tokens := tokens[id := tokens[id].(revoked := true)];
      }
    }

    /** The conditional update: how many rows it changed. */
    method RevokeIfLive(id: nat) returns (count: nat)
      requires id < |tokens|
      modifies this
      ensures count == if old(tokens)[id].revoked then 0 else 1
      ensures tokens == old(tokens)[id := old(tokens)[id].(revoked := true)]
    {
      count := 0;
      if !tokens[id].revoked {
        tokens := tokens[id := tokens[id].(revoked := true)];
        count := 1;
      }
    }

    method Rotate(raw: T.Raw, secret: nat, now: int) returns (result: Result<T.Raw, T.Reason>)
      modifies this
      ensures (tokens, result) == RotateOnce(old(tokens), raw, secret, now)
      ensures result.Ok? <==> && raw.id < |old(tokens)| && !old(tokens)[raw.id].revoked
                              && now < old(tokens)[raw.id].expiresAt && old(tokens)[raw.id].secret == raw.secret
      ensures result.Err? ==> tokens == old(tokens)
    {
      var verified := Verify(raw, now);
      if verified.Err? {
        return Err(verified.error);
      }
      var token := verified.value;
      var count := RevokeIfLive(raw.id);
      if count != 1 {
        return Err(T.LostRace);
      }
      var issued := Generate(token.user, secret, now, token.family, Some(raw.id));
      result := Ok(issued);
    }
  }

  /** The server's tables, as the client's requests reach them. */
  class Backend {
    var world: T.World

    constructor ()
      ensures world == T.START
    {
      world := T.START;
    }

    method Present(raw: T.Raw) returns (u: nat)
      modifies this
      ensures u == |old(world).rotations| && world == T.Step(old(world), T.Present(raw))
    {
      u := |world.rotations|;
      world := world.(rotations := world.rotations + [T.Presented(raw)]);
    }
  }

  /** The API client of one tab, with the stored token of its browser. */
  class ApiClient {
    const backend: Backend
    var refreshToken: Option<T.Raw>
    var refreshInFlight: Option<nat>
    var waiting: nat
    var retried: nat
    var failed: nat
    var load: C.PageLoad
    var sent: seq<nat>

    ghost function State(): C.Device
      reads this, backend
    {
      C.Device(backend.world, refreshToken, [C.Tab(refreshInFlight, waiting, retried, failed, load)], sent)
    }

    constructor (backend: Backend)
      requires backend.world == T.START
      ensures this.backend == backend && State() == C.Start(1)
    {
      this.backend := backend;
      refreshToken, refreshInFlight := None, None;
      waiting, retried, failed, load, sent := 0, 0, 0, C.NoLoad, [];
    }

    /** Joins the refresh in flight or starts one; false when there is no token. */
    method TryRefresh() returns (pending: bool)
      modifies this`refreshInFlight, this`sent, backend
      ensures pending == (old(refreshInFlight).Some? || refreshToken.Some?)
      ensures if old(refreshInFlight).Some? || refreshToken == None
              then backend.world == old(backend.world) && refreshInFlight == old(refreshInFlight) && sent == old(sent)
              else && backend.world == T.Step(old(backend.world), T.Present(refreshToken.value))
                   && refreshInFlight == Some(|old(backend.world).rotations|)
                   && sent == old(sent) + [|old(backend.world).rotations|]
    {
      if refreshInFlight.None? {
        if refreshToken.None? {
          return false;
        }
        var u := backend.Present(refreshToken.value);
        refreshInFlight := Some(u);
        sent := sent + [u];
      }
      pending := true;
    }

    /** A call got its first 401. */
    method OnUnauthorized()
      modifies this, backend
      ensures State() == C.Step(old(State()), C.Unauthorized(0))
    {
      var pending := TryRefresh();
      if pending {
        waiting := waiting + 1;
      } else {
        failed := failed + 1;
      }
    }

    /** The page load's `/me` got its 401. */
    method OnMeUnauthorized()
      modifies this, backend
      ensures State() == C.Step(old(State()), C.MeUnauthorized(0))
    {
      if !load.Loading? {
        return;
      }
      var pending := TryRefresh();
      load := if pending then C.Awaiting else C.NoLoad;
    }

    /** The refresh came back; the calls that waited go on together. */
    method OnReply()
      modifies this
      ensures State() == C.Step(old(State()), C.Reply(0))
    {
      if refreshInFlight.None? || |backend.world.rotations| <= refreshInFlight.value {
        return;
      }
      var rotation := backend.world.rotations[refreshInFlight.value];
      if rotation.Issued? {
        refreshToken := Some(rotation.raw);
        Settle(true);
      } else if rotation.Refused? {
        refreshToken := None;
        Settle(false);
      }
    }

    /** The refresh came back with any other error status: the session is cleared
        just as for a refusal. */
    method OnErrorReply()
      modifies this
      ensures State() == C.Step(old(State()), C.ErrorReply(0))
    {
      if refreshInFlight.Some? {
        refreshToken := None;
        Settle(false);
      }
    }

    /** The refresh request itself failed: client.ts keeps the token, a page load that
        waited for the refresh clears the session. */
    method OnLostReply()
      modifies this
      ensures State() == C.Step(old(State()), C.LoseReply(0))
    {
      if refreshInFlight.Some? {
        if load.Awaiting? {
          refreshToken := None;
        }
        Settle(false);
      }
    }

    /** The calls that shared the refresh go on, with or without new tokens. */
    method Settle(ok: bool)
      modifies this`refreshInFlight, this`waiting, this`retried, this`failed, this`load
      ensures State() == old(State()).(tabs := [C.Settled(old(State()).tabs[0], ok)])
    {
      if ok {
        retried := retried + waiting;
      } else {
        failed := failed + waiting;
      }
      if load.Awaiting? {
        load := if ok then C.Retrying else C.NoLoad;
      }
      waiting, refreshInFlight := 0, None;
    }

    /** A page load: whatever was under way is gone, and `bootstrap` asks who is signed
        in if a token is stored. */
    method Bootstrap()
      modifies this
      ensures State() == C.Step(old(State()), C.Load(0))
    {
      Settle(false);
      load := if refreshToken.Some? then C.Loading else C.NoLoad;
    }

    /** `bootstrap` is done; any failure of its call clears the session. */
    method OnMeAnswered(ok: bool)
      modifies this
      ensures State() == C.Step(old(State()), if ok then C.MeSucceeds(0) else C.MeFails(0))
    {
      if load.Loading? || load.Retrying? {
        load := C.NoLoad;
        if !ok {
          refreshToken := None;
        }
      }
    }
  }
}
