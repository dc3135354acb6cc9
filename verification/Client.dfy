/** Consent, access tokens and disconnecting: the two stores together. Times in milliseconds. */
module Clients {
  import opened Wrappers
  import opened Cryptobox
  import O = OAuthState
  import T = Tokens
  import S = TokenStore

  const LEEWAY: int := 60 * 1000

  datatype ClientError = InvalidState | ExchangeFailed | NotConnected | RefreshFailed | Store(error: S.StoreError)

  /** Google's answer to an authorization code. `granted` is None where it names no scopes. */
  datatype Grant = Grant(refresh: Bytes, access: Bytes, expiresAt: Option<int>, granted: Option<seq<string>>)

  datatype Renewal = Renewal(access: Bytes, expiresAt: Option<int>)

  function TokenOf(grant: Grant, requested: seq<string>): T.Token {
    T.Token(grant.refresh, grant.access, grant.expiresAt, grant.granted.GetOr(requested))
  }

  /** More than a minute of the access token is left. */
  predicate Usable(token: T.Token, now: int) {
    token.access != [] && token.expiresAt.Some? && token.expiresAt.value - now > LEEWAY
  }

  class Client {
    const scopes: seq<string>
    const state: O.StateStore
    const tokens: S.PgTokenStore

    constructor (scopes: seq<string>, state: O.StateStore, tokens: S.PgTokenStore)
      ensures this.scopes == scopes && this.state == state && this.tokens == tokens
    {
      this.scopes := scopes;
      this.state := state;
      this.tokens := tokens;
    }

    /** A failed exchange or save has used up the state all the same. */
    method CompleteConsent(stateParam: string, now: int, answer: Option<Grant>, accessRandom: Option<Bytes>,
                           refreshRandom: Option<Bytes>, up: bool)
      returns (r: Result<string, ClientError>)
      requires tokens.Valid() && Draws(tokens.box, accessRandom) && Draws(tokens.box, refreshRandom)
      modifies state, tokens
      ensures state.entries == O.Apply(old(state.entries), O.Op.Consume(stateParam, now))
      ensures r.Ok? ==>
                && answer.Some? && O.ConsumeResult(old(state.entries), stateParam, now) == Some(r.value)
                && tokens.rows - {r.value} == old(tokens.rows) - {r.value}
                && (answer.value.refresh != [] || old(tokens.Intact(r.value)) ==>
                      && tokens.Intact(r.value) && tokens.Contents() - {r.value} == old(tokens.Contents()) - {r.value}
                      && (r.value in tokens.Contents() <==> answer.value.refresh != [] || r.value in old(tokens.Contents()))
                      && (r.value in tokens.Contents() ==>
                            var stored := tokens.Contents()[r.value];
                            && stored.access == answer.value.access && stored.expiresAt == answer.value.expiresAt
                            && stored.refresh == (if answer.value.refresh != [] then answer.value.refresh
                                                  else old(tokens.Contents())[r.value].refresh)
                            && stored.scopes == if answer.value.granted.Some? then answer.value.granted.value else scopes))
      ensures r.Err? ==> tokens.rows == old(tokens.rows)
      ensures r == Err(InvalidState) <==> O.ConsumeResult(old(state.entries), stateParam, now) == None
      ensures r == Err(ExchangeFailed) <==> O.ConsumeResult(old(state.entries), stateParam, now).Some? && answer.None?
    {
      var user, ok := state.Consume(stateParam, now);
      if !ok {
        return Err(InvalidState);
      }
      if answer.None? {
        return Err(ExchangeFailed);
      }
      var saved := tokens.Save(user, TokenOf(answer.value, scopes), accessRandom, refreshRandom, up);
      if saved.Err? {
        return Err(Store(saved.error));
      }
      return Ok(user);
    }

    /**
      The stored access token while more than a minute of it is left; else a fresh one, which is stored first. `google`
      answers a refresh token. `asked` is the refresh token Google was asked with, if it was asked.
     */
    method AccessToken(user: string, now: int, google: Bytes -> Option<Renewal>, random: Option<Bytes>, loads: bool, stores: bool)
      returns (r: Result<Bytes, ClientError>, asked: Option<Bytes>)
      requires tokens.Valid() && Draws(tokens.box, random)
      modifies tokens
      ensures asked.Some? <==>
              && loads && user in old(tokens.Contents())
              && var stored := old(tokens.Contents()[user]);
                 stored.access == [] || stored.expiresAt.None? || stored.expiresAt.value - now <= 60000
      ensures asked.Some? ==> asked.value == old(tokens.Contents()[user].refresh)
      ensures r.Ok? <==>
              && loads && user in old(tokens.Contents())
              && (asked.Some? ==> && google(asked.value).Some? && stores
                                  && (google(asked.value).value.access == [] || random.Some?))
      ensures r.Ok? && asked.None? ==> r.value == old(tokens.Contents()[user].access)
      ensures r.Ok? && asked.Some? ==>
                && google(asked.value).Some? && r.value == google(asked.value).value.access
                && tokens.Contents() ==
                   old(tokens.Contents())[user := old(tokens.Contents()[user]).(access := r.value,
                                                                                expiresAt := google(asked.value).value.expiresAt)]
      ensures r.Err? || asked.None? ==> tokens.rows == old(tokens.rows)
      ensures r == Err(NotConnected) <==> loads && user !in old(tokens.rows)
      ensures loads && !old(tokens.Intact(user)) ==> r.Err? && r.error.Store? && r.error.error.Sealing?
    {
      asked := None;
      var loaded := tokens.Load(user, loads);
      if loaded == Err(S.NoTokens) {
        return Err(NotConnected), asked;
      }
      if loaded.Err? {
        return Err(Store(loaded.error)), asked;
      }
      var rec := loaded.value;
      if rec.access != [] && rec.expiresAt.Some? && rec.expiresAt.value - now > LEEWAY {
        return Ok(rec.access), asked;
      }
      asked := Some(rec.refresh);
      var renewed := google(rec.refresh);
      if renewed.None? {
        return Err(RefreshFailed), asked;
      }
      var stored := tokens.UpdateAccess(user, renewed.value.access, renewed.value.expiresAt, random, stores);
      if stored.Err? {
        return Err(Store(stored.error)), asked;
      }
      return Ok(renewed.value.access), asked;
    }

    /**
      Disconnecting a user who is not connected is no error; one whose refresh token does not open is, but is disconnected
      too. `revoked` is the refresh token handed on for revocation.
     */
    method Disconnect(user: string, up: bool) returns (r: Result<(), ClientError>, revoked: Option<Bytes>)
      modifies tokens
      ensures tokens.rows == if up then old(tokens.rows) - {user} else old(tokens.rows)
      ensures tokens.Contents() == if up then old(tokens.Contents()) - {user} else old(tokens.Contents())
      ensures r.Ok? <==> up && (user in old(tokens.rows) ==> Opens(tokens.box, old(tokens.rows)[user].refreshCt))
      ensures revoked.Some? <==> r.Ok? && user in old(tokens.rows) && Hidden(tokens.box, old(tokens.rows)[user].refreshCt) != []
      ensures revoked.Some? ==> revoked.value == Hidden(tokens.box, old(tokens.rows)[user].refreshCt)
      ensures up && user in old(tokens.Contents()) && old(tokens.Contents())[user].refresh != [] ==>
                revoked == Some(old(tokens.Contents())[user].refresh)
    {
      revoked := None;
      var deleted := tokens.Delete(user, up);
      if deleted == Err(S.NoTokens) {
        return Ok(()), revoked;
      }
      if deleted.Err? {
        return Err(Store(deleted.error)), revoked;
      }
      if deleted.value != [] {
        revoked := Some(deleted.value);
      }
      return Ok(()), revoked;
    }
  }

  /**
    The two calls in a row: after a consent that brought a refresh token, the access token of that grant is handed out
    without asking Google, while more than a minute of it is left; and not a moment longer.
   */
  method ConsentThenAccess(c: Client, stateParam: string, now: int, grant: Grant, accessRandom: Option<Bytes>,
                           refreshRandom: Option<Bytes>, later: int, google: Bytes -> Option<Renewal>)
    returns (consented: Result<string, ClientError>, r: Result<Bytes, ClientError>, asked: Option<Bytes>)
    requires c.tokens.Valid() && Draws(c.tokens.box, accessRandom) && Draws(c.tokens.box, refreshRandom)
    requires grant.refresh != [] && grant.access != []
    modifies c.state, c.tokens
    ensures consented.Ok? && grant.expiresAt.Some? && grant.expiresAt.value - later > 60000 ==> r == Ok(grant.access) && asked == None
    ensures consented.Ok? && (grant.expiresAt.None? || grant.expiresAt.value - later <= 60000) ==> asked == Some(grant.refresh)
  {
    consented := c.CompleteConsent(stateParam, now, Some(grant), accessRandom, refreshRandom, true);
    if consented.Err? {
      return consented, Err(consented.error), None;
    }
    r, asked := c.AccessToken(consented.value, later, google, None, true, true);
  }
}

/** Any number of consents, refreshes and disconnects at once, step by step. */
module ConsentRaces {
  import opened Wrappers
  import opened Histories
  import opened Cryptobox
  import opened Clients
  import O = OAuthState
  import T = Tokens

  datatype Outcome = Rejected | Failed | Connected(user: string) | NoConnection | Token(user: string, access: Bytes)

  /** Where a call of `CompleteConsent` or `accessToken` stands, named after what it waits for. */
  datatype Proc =
    | Exchanging(state: string, user: string)
    | Saving(state: string, user: string, token: T.Token)
    | Refreshing(user: string, refresh: Bytes)
    | Updating(user: string, refresh: Bytes, renewal: Renewal)
    | Ended(outcome: Outcome)
  {
    predicate Consenting() {
      Exchanging? || Saving?
    }
  }

  /** `states` and `tokens` are the histories of the two stores; `saved` says which state led to a save, and for whom. */
  datatype Sys = Sys(now: int, states: Log<O.Op>, tokens: Log<T.Op>, procs: map<nat, Proc>, saved: map<string, string>)

  const INIT: Sys := Sys(0, Empty, Empty, map[], map[])

  datatype Event =
    | Tick(now: int)
    | Issue(user: string, random: string)
    | Callback(p: nat, state: string)
    | Exchanged(p: nat, answer: Option<Grant>, requested: seq<string>)
    | SaveLands(p: nat, ok: bool)
    | Access(p: nat, user: string, ok: bool)
    | Refreshed(p: nat, renewal: Option<Renewal>)
    | UpdateLands(p: nat, ok: bool)
    | Disconnect(user: string)
    | Sweep

  function Table(s: Sys): T.Table {
    T.After(s.tokens)
  }

  function Move(s: Sys, p: nat, pc: Proc): Sys {
    s.(procs := s.procs[p := pc])
  }

  function ConsumedBy(s: Sys, state: string): Option<string> {
    O.ConsumeResult(O.After(s.states), state, s.now)
  }

  /** States are random: one that was issued before does not come again. */
  function Step(s: Sys, e: Event): Sys {
    match e
    case Tick(now) => if s.now <= now then s.(now := now) else s
    case Issue(user, random) =>
      if O.Issues(s.states, random) == 0 then s.(states := Snoc(s.states, O.Op.Create(random, user, s.now))) else s
    case Callback(p, state) =>
      if p in s.procs then s
      else
        var user := ConsumedBy(s, state);
        Move(s.(states := Snoc(s.states, O.Op.Consume(state, s.now))), p,
             if user.Some? then Exchanging(state, user.value) else Ended(Rejected))
    case Exchanged(p, answer, requested) =>
      if p in s.procs && s.procs[p].Exchanging? then
        Move(s, p, if answer.Some? then Saving(s.procs[p].state, s.procs[p].user, TokenOf(answer.value, requested)) else Ended(Failed))
      else s
    case SaveLands(p, ok) =>
      if p in s.procs && s.procs[p].Saving? then
        var pc := s.procs[p];
        if ok then
          Move(s, p, Ended(Connected(pc.user))).(
          tokens := Snoc(s.tokens, T.Op.Save(pc.user, pc.token)), saved := s.saved[pc.state := pc.user])
        else Move(s, p, Ended(Failed))
      else s
    case Access(p, user, ok) =>
      if p in s.procs then s
      else if !ok then Move(s, p, Ended(Failed))
      else if user !in Table(s) then Move(s, p, Ended(NoConnection))
      else if Usable(Table(s)[user], s.now) then Move(s, p, Ended(Token(user, Table(s)[user].access)))
      else Move(s, p, Refreshing(user, Table(s)[user].refresh))
    case Refreshed(p, renewal) =>
      if p in s.procs && s.procs[p].Refreshing? then
        Move(s, p, if renewal.Some? then Updating(s.procs[p].user, s.procs[p].refresh, renewal.value) else Ended(Failed))
      else s
    case UpdateLands(p, ok) =>
      if p in s.procs && s.procs[p].Updating? then
        var pc := s.procs[p];
        if ok then
          Move(s, p, Ended(Token(pc.user, pc.renewal.access))).(
          tokens := Snoc(s.tokens, T.Op.UpdateAccess(pc.user, pc.renewal.access, pc.renewal.expiresAt)))
        else Move(s, p, Ended(Failed))
      else s
    case Disconnect(user) => s.(tokens := Snoc(s.tokens, T.Op.Delete(user)))
    case Sweep => s.(states := Snoc(s.states, O.Op.Sweep(s.now)))
  }

  function Run(s: Sys, events: seq<Event>): Sys
    decreases |events|
  {
    if events == [] then s else Run(Step(s, events[0]), events[1..])
  }

  // ----- the invariant -----

  /** The state was issued to the user and then presented within its ten minutes. */
  ghost predicate PresentedInTime(states: Log<O.Op>, state: string, user: string) {
    exists issued, used ::
      && used <= issued + 600000
      && InOrder([O.Op.Create(state, user, issued), O.Op.Consume(state, used)], states)
  }

  /** The state is used up, and was presented in time by the user it was issued to. */
  ghost predicate Spent(states: Log<O.Op>, state: string, user: string) {
    O.Issues(states, state) == O.Wins(states, state) == 1 && PresentedInTime(states, state, user)
  }

  /** The refresh token was, at some time, the user's. */
  predicate WasRefresh(tokens: Log<T.Op>, user: string, refresh: Bytes) {
    T.LastRefresh(tokens, user) == Some(refresh) || (tokens.Snoc? && WasRefresh(tokens.past, user, refresh))
  }

  /** The access token was written for the user by a save or a refresh. */
  predicate WasWritten(tokens: Log<T.Op>, user: string, access: Bytes) {
    match tokens
    case Empty => false
    case Snoc(past, op) =>
      || WasWritten(past, user, access)
      || (op.Save? && op.user == user && op.token.access == access)
      || (op.UpdateAccess? && op.user == user && op.access == access)
  }

  function Saves(tokens: Log<T.Op>): nat {
    match tokens
    case Empty => 0
    case Snoc(past, op) => Saves(past) + if op.Save? then 1 else 0
  }

  ghost predicate SavesBacked(tokens: Log<T.Op>, saved: map<string, string>) {
    match tokens
    case Empty => true
    case Snoc(past, op) =>
      SavesBacked(past, saved) && (op.Save? ==> exists state <- saved :: saved[state] == op.user)
  }

  ghost predicate ProcOk(s: Sys, pc: Proc) {
    match pc
    case Exchanging(state, user) => Spent(s.states, state, user) && state !in s.saved
    case Saving(state, user, _) => Spent(s.states, state, user) && state !in s.saved
    case Refreshing(user, refresh) => WasRefresh(s.tokens, user, refresh)
    case Updating(user, refresh, _) => WasRefresh(s.tokens, user, refresh)
    case Ended(Connected(user)) => exists state <- s.saved :: s.saved[state] == user
    case Ended(Token(user, access)) => WasWritten(s.tokens, user, access)
    case Ended(_) => true
  }

  ghost predicate ProcsOk(s: Sys) {
    forall p <- s.procs :: ProcOk(s, s.procs[p])
  }

  /** No two consents hold the same state. */
  ghost predicate StatesDistinct(s: Sys) {
    forall p, q | p in s.procs && q in s.procs && p != q && s.procs[p].Consenting() && s.procs[q].Consenting() ::
      s.procs[p].state != s.procs[q].state
  }

  ghost predicate Inv(s: Sys) {
    && O.Monotone(s.states, s.now)
    && (forall state :: O.Issues(s.states, state) <= 1)
    && ProcsOk(s) && StatesDistinct(s)
    && (forall state <- s.saved :: Spent(s.states, state, s.saved[state]))
    && Saves(s.tokens) == |s.saved| && SavesBacked(s.tokens, s.saved)
  }

  lemma InitInv()
    ensures Inv(INIT)
  {
  }

  // ----- histories only grow -----

  lemma {:induction false} ContainsInOrder(log: Log<O.Op>, a: O.Op, b: O.Op)
    requires Contains(log, a)
    ensures InOrder([a, b], Snoc(log, b))
    decreases log
  {
    ContainsOne(log, a);
    InOrderPush([a], log, b);
    assert [a] + [b] == [a, b];
  }

  lemma {:induction false} ContainsOne(log: Log<O.Op>, a: O.Op)
    requires Contains(log, a)
    ensures InOrder([a], log)
    decreases log
  {
    if log.last == a {
      assert [a][..0] == [];
    } else {
      ContainsOne(log.past, a);
    }
  }

  lemma PresentedStays(states: Log<O.Op>, op: O.Op, state: string, user: string)
    requires PresentedInTime(states, state, user)
    ensures PresentedInTime(Snoc(states, op), state, user)
  {
    var issued, used :| used <= issued + 600000
      && InOrder([O.Op.Create(state, user, issued), O.Op.Consume(state, used)], states);
    InOrderPush([O.Op.Create(state, user, issued), O.Op.Consume(state, used)], states, op);
  }

  /** Any further operation that does not issue the state anew leaves it spent. */
  lemma SpentStays(states: Log<O.Op>, op: O.Op, state: string, user: string)
    requires Spent(states, state, user) && O.Issues(Snoc(states, op), state) <= 1
    ensures Spent(Snoc(states, op), state, user)
  {
    PresentedStays(states, op, state, user);
    O.WinsNeedIssues(Snoc(states, op), state);
    assert O.Wins(Snoc(states, op), state) >= O.Wins(states, state);
    hide PresentedInTime;
  }

  lemma {:induction false} BackedByMore(tokens: Log<T.Op>, saved: map<string, string>, state: string, user: string)
    requires SavesBacked(tokens, saved) && state !in saved
    ensures SavesBacked(tokens, saved[state := user])
    decreases tokens
  {
    if tokens.Snoc? {
      BackedByMore(tokens.past, saved, state, user);
      if tokens.last.Save? {
        var other :| other in saved && saved[other] == tokens.last.user;
        assert other in saved[state := user];
      }
    }
  }

  /** A history of tokens that grows keeps what is known about the calls. */
  lemma ProcStays(s: Sys, t: Sys, pc: Proc)
    requires ProcOk(s, pc) && t.states == s.states && t.tokens.Snoc? && t.tokens.past == s.tokens
    requires pc.Consenting() ==> pc.state !in t.saved
    requires forall state <- s.saved :: state in t.saved && t.saved[state] == s.saved[state]
    ensures ProcOk(t, pc)
  {
    hide Spent;
    match pc
    case Ended(Connected(user)) =>
      var state :| state in s.saved && s.saved[state] == user;
      assert state in t.saved;
    case _ =>
  }

  // ----- the steps -----

  lemma StatesGrow(s: Sys, op: O.Op)
    requires Inv(s) && O.Clock(op) == s.now
    requires forall state :: O.Issues(Snoc(s.states, op), state) <= 1
    ensures Inv(s.(states := Snoc(s.states, op)))
  {
    hide Spent, WasRefresh, WasWritten, SavesBacked, Saves;
    var t := s.(states := Snoc(s.states, op));
    forall p <- s.procs
      ensures ProcOk(t, s.procs[p])
    {
      assert ProcOk(s, s.procs[p]);
      if s.procs[p].Consenting() {
        SpentStays(s.states, op, s.procs[p].state, s.procs[p].user);
      }
    }
    forall state <- s.saved
      ensures Spent(t.states, state, s.saved[state])
    {
      SpentStays(s.states, op, state, s.saved[state]);
    }
  }

  lemma IssueInv(s: Sys, user: string, random: string)
    requires Inv(s)
    ensures Inv(Step(s, Issue(user, random)))
  {
    hide ProcsOk, StatesDistinct, Spent, SavesBacked;
    if O.Issues(s.states, random) == 0 {
      StatesGrow(s, O.Op.Create(random, user, s.now));
    }
  }

  /** One call moves on; the stores stand still. */
  lemma MoveInv(s: Sys, p: nat, pc: Proc)
    requires Inv(s) && ProcOk(s, pc)
    requires pc.Consenting() ==> forall q <- s.procs :: q != p && s.procs[q].Consenting() ==> s.procs[q].state != pc.state
    ensures Inv(Move(s, p, pc))
  {
    hide Spent, WasRefresh, WasWritten, SavesBacked, Saves;
    var t := Move(s, p, pc);
    forall q <- t.procs
      ensures ProcOk(t, t.procs[q])
    {
      assert q != p ==> ProcOk(s, s.procs[q]);
    }
  }

  lemma CallbackInv(s: Sys, p: nat, state: string)
    requires Inv(s) && p !in s.procs
    ensures Inv(Step(s, Callback(p, state)))
  {
    hide Inv, Spent, WasRefresh, WasWritten;
    var op := O.Op.Consume(state, s.now);
    var t := s.(states := Snoc(s.states, op));
    OneIssueStill(s, op);
    StatesGrow(s, op);
    var user := ConsumedBy(s, state);
    if user.Some? {
      CallbackSpends(s, state);
      NobodyElse(s, state);
    }
    MoveInv(t, p, if user.Some? then Exchanging(state, user.value) else Ended(Rejected));
  }

  lemma OneIssueStill(s: Sys, op: O.Op)
    requires Inv(s) && !op.Create?
    ensures O.Clock(op) == s.now ==> forall state :: O.Issues(Snoc(s.states, op), state) <= 1
  {
    hide ProcsOk, StatesDistinct, Spent, SavesBacked;
  }

  /** The state that was just consumed was issued once, and is spent now. */
  lemma CallbackSpends(s: Sys, state: string)
    requires Inv(s) && ConsumedBy(s, state).Some?
    ensures Spent(Snoc(s.states, O.Op.Consume(state, s.now)), state, ConsumedBy(s, state).value)
  {
    hide ProcsOk, StatesDistinct, SavesBacked;
    var user := ConsumedBy(s, state).value;
    O.SuccessNamesTheIssue(s.states, state, s.now);
    O.WinsNeedIssues(Snoc(s.states, O.Op.Consume(state, s.now)), state);
    var issued :| s.now <= issued + 600000 && Contains(s.states, O.Op.Create(state, user, issued));
    ContainsInOrder(s.states, O.Op.Create(state, user, issued), O.Op.Consume(state, s.now));
  }

  /** A state that can still be consumed is in nobody's hands, and led to no save. */
  lemma NobodyElse(s: Sys, state: string)
    requires Inv(s) && ConsumedBy(s, state).Some?
    ensures state !in s.saved
    ensures forall q <- s.procs :: s.procs[q].Consenting() ==> s.procs[q].state != state
  {
    O.WinsNeedIssues(s.states, state);
    hide PresentedInTime, SavesBacked, StatesDistinct;
    forall q <- s.procs | s.procs[q].Consenting()
      ensures s.procs[q].state != state
    {
      assert ProcOk(s, s.procs[q]);
    }
  }

  /** A save lands: the state moves from the call to the record of saves. */
  lemma SaveInv(s: Sys, p: nat)
    requires Inv(s) && p in s.procs && s.procs[p].Saving?
    ensures Inv(Step(s, SaveLands(p, true)))
    ensures s.procs[p].state !in s.saved
  {
    hide Spent, WasRefresh, WasWritten;
    var t := Step(s, SaveLands(p, true));
    var pc := s.procs[p];
    assert ProcOk(s, pc);
    BackedByMore(s.tokens, s.saved, pc.state, pc.user);
    assert pc.state in t.saved && t.saved[pc.state] == pc.user;
    forall q <- t.procs
      ensures ProcOk(t, t.procs[q])
    {
      if q != p {
        ProcStays(s, t, s.procs[q]);
      }
    }
  }

  /** The tokens change otherwise than by a save. */
  lemma TokensGrow(s: Sys, op: T.Op)
    requires Inv(s) && !op.Save?
    ensures Inv(s.(tokens := Snoc(s.tokens, op)))
  {
    hide Spent, WasRefresh, WasWritten;
    var t := s.(tokens := Snoc(s.tokens, op));
    forall q <- t.procs
      ensures ProcOk(t, t.procs[q])
    {
      ProcStays(s, t, s.procs[q]);
    }
  }

  lemma {:induction false} StoredWasWritten(tokens: Log<T.Op>, user: string)
    requires user in T.After(tokens)
    ensures WasWritten(tokens, user, T.After(tokens)[user].access)
    decreases tokens
  {
    if user in T.After(tokens.past) {
      StoredWasWritten(tokens.past, user);
    }
  }

  lemma AccessInv(s: Sys, p: nat, user: string, ok: bool)
    requires Inv(s)
    ensures Inv(Step(s, Access(p, user, ok)))
  {
    hide Inv, Spent;
    if user in Table(s) {
      T.StoredIs(s.tokens, user);
      StoredWasWritten(s.tokens, user);
    }
    MoveOnly(s, p, user, ok);
  }

  lemma MoveOnly(s: Sys, p: nat, user: string, ok: bool)
    requires Inv(s)
    requires p !in s.procs && user in Table(s) ==>
               WasWritten(s.tokens, user, Table(s)[user].access) && WasRefresh(s.tokens, user, Table(s)[user].refresh)
    ensures Inv(Step(s, Access(p, user, ok)))
  {
    hide Inv, Spent, WasWritten, WasRefresh, Table, Usable;
    var t := Step(s, Access(p, user, ok));
    if t != s {
      MoveInv(s, p, t.procs[p]);
    }
  }

  lemma UpdateInv(s: Sys, p: nat)
    requires Inv(s) && p in s.procs && s.procs[p].Updating?
    ensures Inv(Step(s, UpdateLands(p, true)))
  {
    hide Inv, Spent, WasRefresh;
    var pc := s.procs[p];
    var op := T.Op.UpdateAccess(pc.user, pc.renewal.access, pc.renewal.expiresAt);
    TokensGrow(s, op);
    MoveInv(s.(tokens := Snoc(s.tokens, op)), p, Ended(Token(pc.user, pc.renewal.access)));
  }

  lemma ExchangedInv(s: Sys, p: nat, answer: Option<Grant>, requested: seq<string>)
    requires Inv(s)
    ensures Inv(Step(s, Exchanged(p, answer, requested)))
  {
    hide Spent, SavesBacked, WasRefresh, WasWritten, Saves;
    if p in s.procs && s.procs[p].Exchanging? {
      assert ProcOk(s, s.procs[p]);
      MoveInv(s, p, Step(s, Exchanged(p, answer, requested)).procs[p]);
    }
  }

  lemma RefreshedInv(s: Sys, p: nat, renewal: Option<Renewal>)
    requires Inv(s)
    ensures Inv(Step(s, Refreshed(p, renewal)))
  {
    hide Spent, SavesBacked, WasRefresh, WasWritten, Saves, StatesDistinct;
    if p in s.procs && s.procs[p].Refreshing? {
      assert ProcOk(s, s.procs[p]);
      MoveInv(s, p, Step(s, Refreshed(p, renewal)).procs[p]);
    }
  }

  lemma TickInv(s: Sys, now: int)
    requires Inv(s)
    ensures Inv(Step(s, Tick(now)))
  {
    hide Spent, SavesBacked, WasRefresh, WasWritten, Saves;
    if s.now <= now {
      var t := s.(now := now);
      forall p <- s.procs
        ensures ProcOk(t, t.procs[p])
      {
        assert ProcOk(s, s.procs[p]);
      }
    }
  }

  lemma StepInv(s: Sys, e: Event)
    requires Inv(s)
    ensures Inv(Step(s, e))
  {
    hide Inv, ProcOk, Spent;
    match e
    case Tick(now) => TickInv(s, now);
    case Issue(user, random) => IssueInv(s, user, random);
    case Callback(p, state) =>
      if p !in s.procs {
        CallbackInv(s, p, state);
      }
    case Exchanged(p, answer, requested) => ExchangedInv(s, p, answer, requested);
    case SaveLands(p, ok) =>
      if p in s.procs && s.procs[p].Saving? {
        if ok {
          SaveInv(s, p);
        } else {
          FailedInv(s, p);
        }
      }
    case Access(p, user, ok) => AccessInv(s, p, user, ok);
    case Refreshed(p, renewal) => RefreshedInv(s, p, renewal);
    case UpdateLands(p, ok) =>
      if p in s.procs && s.procs[p].Updating? {
        if ok {
          UpdateInv(s, p);
        } else {
          FailedInv(s, p);
        }
      }
    case Disconnect(user) => TokensGrow(s, T.Op.Delete(user));
    case Sweep =>
      OneIssueStill(s, O.Op.Sweep(s.now));
      StatesGrow(s, O.Op.Sweep(s.now));
  }

  lemma FailedInv(s: Sys, p: nat)
    requires Inv(s)
    ensures Inv(Move(s, p, Ended(Failed)))
  {
    hide Inv;
    MoveInv(s, p, Ended(Failed));
  }

  lemma {:induction false} RunInv(s: Sys, events: seq<Event>)
    requires Inv(s)
    ensures Inv(Run(s, events))
    decreases |events|
  {
    hide Inv, Step;
    if events != [] {
      StepInv(s, events[0]);
      RunInv(Step(s, events[0]), events[1..]);
    }
  }

  // ----- what holds over every run -----

  lemma {:induction false} ConnectedWasSaved(tokens: Log<T.Op>, saved: map<string, string>, user: string)
    requires SavesBacked(tokens, saved) && T.LastRefresh(tokens, user).Some?
    ensures exists state <- saved :: saved[state] == user
    decreases tokens
  {
    if !T.Connects(tokens.last, user) {
      ConnectedWasSaved(tokens.past, saved, user);
    }
  }

  /**
    Whatever is interleaved: saves and used-up states are in one-to-one correspondence, each state was issued once, to the
    user it was saved for, and presented once, in time; and a connected user is one for whom such a save was made.
   */
  lemma SavedForTheIssuedUser(events: seq<Event>, user: string)
    ensures var s := Run(INIT, events);
            && Saves(s.tokens) == |s.saved|
            && (forall state <- s.saved ::
                  O.Issues(s.states, state) == O.Wins(s.states, state) == 1 && PresentedInTime(s.states, state, s.saved[state]))
            && (user in Table(s) ==> exists state <- s.saved :: s.saved[state] == user)
  {
    hide Run, PresentedInTime;
    var s := Run(INIT, events);
    InitInv();
    RunInv(INIT, events);
    T.StoredIs(s.tokens, user);
    if user in Table(s) {
      ConnectedWasSaved(s.tokens, s.saved, user);
    }
  }

  /** A call that ends connected has saved for the issued user; an access token that is handed out was written for its user. */
  lemma EndsAreEarned(events: seq<Event>, p: nat)
    requires p in Run(INIT, events).procs
    ensures var s := Run(INIT, events);
            match s.procs[p]
            case Ended(Connected(user)) => exists state <- s.saved :: s.saved[state] == user && Spent(s.states, state, user)
            case Ended(Token(user, access)) => WasWritten(s.tokens, user, access)
            case Refreshing(user, refresh) => WasRefresh(s.tokens, user, refresh)
            case _ => true
  {
    hide Run, Spent;
    var s := Run(INIT, events);
    InitInv();
    RunInv(INIT, events);
    assert ProcOk(s, s.procs[p]);
  }

  /** A call of `CompleteConsent` for the user that may still save a refresh token. */
  predicate MayConnect(pc: Proc, user: string) {
    (pc.Exchanging? && pc.user == user) || (pc.Saving? && pc.user == user && pc.token.refresh != [])
  }

  predicate NoConsentUnderWay(s: Sys, user: string) {
    forall p <- s.procs :: !MayConnect(s.procs[p], user)
  }

  /** No event presents a state that would still be accepted for the user. */
  predicate NoNewConsent(s: Sys, events: seq<Event>, user: string)
    decreases |events|
  {
    events == [] ||
    (&& !(events[0].Callback? && ConsumedBy(s, events[0].state) == Some(user))
     && NoNewConsent(Step(s, events[0]), events[1..], user))
  }

  lemma QuietStep(s: Sys, e: Event, user: string)
    requires NoConsentUnderWay(s, user) && !(e.Callback? && ConsumedBy(s, e.state) == Some(user))
    ensures NoConsentUnderWay(Step(s, e), user)
    ensures T.NoConsentSince(s.tokens, Step(s, e).tokens, user)
  {
    hide Table, Usable, ConsumedBy;
  }

  lemma {:induction false} NoConsentChain(a: Log<T.Op>, b: Log<T.Op>, c: Log<T.Op>, user: string)
    requires T.NoConsentSince(a, b, user) && T.NoConsentSince(b, c, user)
    ensures T.NoConsentSince(a, c, user)
    decreases c
  {
    if c != b {
      NoConsentChain(a, b, c.past, user);
    }
  }

  lemma {:induction false} QuietRun(s: Sys, events: seq<Event>, user: string)
    requires NoConsentUnderWay(s, user) && NoNewConsent(s, events, user)
    ensures T.NoConsentSince(s.tokens, Run(s, events).tokens, user)
    decreases |events|
  {
    hide Step;
    if events != [] {
      var t := Step(s, events[0]);
      QuietStep(s, events[0], user);
      QuietRun(t, events[1..], user);
      NoConsentChain(s.tokens, t.tokens, Run(t, events[1..]).tokens, user);
    }
  }

  /**
    A refresh never reconnects: if a user disconnects while no consent of theirs is under way, and then no state of theirs
    is accepted, they stay disconnected, whichever refreshes were under way and whenever they land.
   */
  lemma RefreshNeverReconnects(s: Sys, events: seq<Event>, user: string)
    requires NoConsentUnderWay(s, user) && NoNewConsent(Step(s, Disconnect(user)), events, user)
    ensures user !in Table(Run(Step(s, Disconnect(user)), events))
  {
    hide Run;
    var t := Step(s, Disconnect(user));
    QuietRun(t, events, user);
    T.StaysDisconnected(s.tokens, Run(t, events).tokens, user);
  }

  /** A save that lands connects its user exactly if it brings a refresh token, or the user is connected anyway. */
  lemma SaveConnectsIff(s: Sys, p: nat)
    requires p in s.procs && s.procs[p].Saving?
    ensures var user := s.procs[p].user;
            user in Table(Step(s, SaveLands(p, true))) <==> s.procs[p].token.refresh != [] || user in Table(s)
  {
  }

  // ----- time -----

  /** A state is accepted exactly until ten minutes after it was issued, and for the user it was issued to. */
  lemma CallbackInTimeIff(s: Sys, user: string, state: string, later: int, p: nat)
    requires O.Issues(s.states, state) == 0 && s.now <= later && p !in s.procs
    ensures var t := Step(Step(Step(s, Issue(user, state)), Tick(later)), Callback(p, state));
            && p in t.procs && t.now == later && t.tokens == s.tokens
            && t.procs[p] == if later <= s.now + 600000 then Exchanging(state, user) else Ended(Rejected)
  {
  }

  /** A sweep leaves no state that has expired. */
  lemma SweepForgets(s: Sys)
    ensures forall state <- O.After(Step(s, Sweep).states) :: s.now <= O.After(Step(s, Sweep).states)[state].expiresAt
  {
  }

  // ----- calls end -----

  /** What a call waits for goes wrong. */
  predicate GoesWrong(s: Sys, e: Event, p: nat) {
    match e
    case Exchanged(q, answer, _) => q == p && p in s.procs && s.procs[p].Exchanging? && answer.None?
    case SaveLands(q, ok) => q == p && p in s.procs && s.procs[p].Saving? && !ok
    case Access(q, _, ok) => q == p && p !in s.procs && !ok
    case Refreshed(q, renewal) => q == p && p in s.procs && s.procs[p].Refreshing? && renewal.None?
    case UpdateLands(q, ok) => q == p && p in s.procs && s.procs[p].Updating? && !ok
    case _ => false
  }

  /** A call that goes wrong ends at once and leaves both stores and every other call as they are. */
  lemma FailureEnds(s: Sys, e: Event, p: nat)
    requires GoesWrong(s, e, p)
    ensures Step(s, e) == s.(procs := s.procs[p := Ended(Failed)])
  {
    hide Table, Usable, ConsumedBy;
  }

  /** A call that has ended stays so, with the outcome it has. */
  lemma {:induction false} EndedIsFinal(s: Sys, events: seq<Event>, p: nat)
    requires p in s.procs && s.procs[p].Ended?
    ensures p in Run(s, events).procs && Run(s, events).procs[p] == s.procs[p]
    decreases |events|
  {
    if events != [] {
      EndedStays(s, events[0], p);
      EndedIsFinal(Step(s, events[0]), events[1..], p);
    }
  }

  lemma EndedStays(s: Sys, e: Event, p: nat)
    requires p in s.procs && s.procs[p].Ended?
    ensures p in Step(s, e).procs && Step(s, e).procs[p] == s.procs[p]
  {
    hide Table, Usable, ConsumedBy;
  }

  // ----- what is handed out -----

  /** Google has answered the code with `grant`, and it has been saved. */
  function Consented(s: Sys, p: nat, grant: Grant, requested: seq<string>): Sys {
    Step(Step(s, Exchanged(p, Some(grant), requested)), SaveLands(p, true))
  }

  /** The history has gone on from `past` to `log` without any operation on this user's tokens. */
  predicate Untouched(past: Log<T.Op>, log: Log<T.Op>, user: string) {
    log == past || (log.Snoc? && log.last.user != user && Untouched(past, log.past, user))
  }

  lemma {:induction false} UntouchedKeeps(past: Log<T.Op>, log: Log<T.Op>, user: string)
    requires Untouched(past, log, user) && user in T.After(past)
    ensures user in T.After(log) && T.After(log)[user] == T.After(past)[user]
    decreases log
  {
    if log != past {
      UntouchedKeeps(past, log.past, user);
    }
  }

  /** What is stored by a consent: Google's own tokens, the old refresh token where there is no new one. */
  lemma ConsentStores(s: Sys, p: nat, grant: Grant, requested: seq<string>)
    requires p in s.procs && s.procs[p].Exchanging?
    requires grant.refresh != [] || s.procs[p].user in Table(s)
    ensures var user := s.procs[p].user; var t := Consented(s, p, grant, requested);
            && user in Table(t) && Table(t)[user].access == grant.access && Table(t)[user].expiresAt == grant.expiresAt
            && Table(t)[user].refresh == (if grant.refresh != [] then grant.refresh else Table(s)[user].refresh)
            && Table(t)[user].scopes == (if grant.granted.Some? then grant.granted.value else requested)
            && t.now == s.now && p in t.procs && t.procs[p] == Ended(Connected(user))
  {
  }

  /**
    The access token of a grant is handed out, without asking Google, exactly while more than a minute of it is left: after
    the consent is saved, and after any events that do not write the user's tokens. Otherwise Google is asked, with the
    refresh token of that grant or, where it has none, the one before.
   */
  lemma GrantIsHandedOutIff(s: Sys, p: nat, grant: Grant, requested: seq<string>, between: seq<Event>, q: nat)
    requires p in s.procs && s.procs[p].Exchanging?
    requires grant.refresh != [] || s.procs[p].user in Table(s)
    requires var t := Consented(s, p, grant, requested);
             && Untouched(t.tokens, Run(t, between).tokens, s.procs[p].user) && q !in Run(t, between).procs
    ensures var user := s.procs[p].user;
            var u := Run(Consented(s, p, grant, requested), between);
            var v := Step(u, Access(q, user, true));
            && q in v.procs && v.tokens == u.tokens
            && v.procs[q] ==
               if grant.access != [] && grant.expiresAt.Some? && grant.expiresAt.value - u.now > 60000
               then Ended(Token(user, grant.access))
               else Refreshing(user, if grant.refresh != [] then grant.refresh else Table(s)[user].refresh)
  {
    var t := Consented(s, p, grant, requested);
    ConsentStores(s, p, grant, requested);
    UntouchedKeeps(t.tokens, Run(t, between).tokens, s.procs[p].user);
    hide Run, Consented;
  }

  /**
    Exactly when a disconnected user can be connected again although no state of theirs is accepted any more: if and only if
    a consent of theirs was under way at the disconnect that waits for Google's answer, or has a refresh token to save.
   */
  lemma ReconnectsIff(s: Sys, user: string)
    ensures var t := Step(s, Disconnect(user));
            (exists events :: NoNewConsent(t, events, user) && user in Table(Run(t, events)))
            <==> exists p <- s.procs :: MayConnect(s.procs[p], user)
  {
    hide Run, NoNewConsent, Table;
    var t := Step(s, Disconnect(user));
    if p :| p in s.procs && MayConnect(s.procs[p], user) {
      assert t.procs == s.procs;
      var events := ConsentGoesOn(t, p, user);
    } else {
      forall events | NoNewConsent(t, events, user)
        ensures user !in Table(Run(t, events))
      {
        RefreshNeverReconnects(s, events, user);
      }
    }
  }

  /** From where it stands the consent gets to its save. */
  lemma ConsentGoesOn(s: Sys, p: nat, user: string) returns (events: seq<Event>)
    requires p in s.procs && MayConnect(s.procs[p], user)
    ensures NoNewConsent(s, events, user) && user in Table(Run(s, events))
  {
    var save := SaveLands(p, true);
    if s.procs[p].Saving? {
      events := [save];
      SaveConnectsIff(s, p);
      hide Step;
      assert Run(s, [save]) == Step(s, save);
    } else {
      var exchanged := Exchanged(p, Some(Grant([0], [], None, None)), []);
      events := [exchanged, save];
      var t := Step(s, exchanged);
      SaveConnectsIff(t, p);
      assert t.procs[p].Saving? && t.procs[p].user == user && t.procs[p].token.refresh != [];
      hide Step;
      RunTwo(s, exchanged, save);
      assert events[1..] == [save] && NoNewConsent(t, [save], user);
    }
  }

  /**
    A refresh that lands after a newer consent puts an access token of the old grant beside the refresh token of the new
    one: the stored pair belongs together exactly if both grants have the same refresh token.
   */
  lemma LateRefreshMixesGrants(s: Sys, p: nat, q: nat, renewal: Renewal)
    requires p in s.procs && s.procs[p].Refreshing? && q in s.procs && s.procs[q].Saving?
    requires s.procs[q].user == s.procs[p].user && s.procs[q].token.refresh != []
    ensures var user := s.procs[p].user;
            var t := Run(s, [SaveLands(q, true), Refreshed(p, Some(renewal)), UpdateLands(p, true)]);
            && user in Table(t) && Table(t)[user].access == renewal.access
            && Table(t)[user].refresh == s.procs[q].token.refresh
            && (Table(t)[user].refresh == s.procs[p].refresh <==> s.procs[q].token.refresh == s.procs[p].refresh)
  {
    var a := Step(s, SaveLands(q, true));
    var b := Step(a, Refreshed(p, Some(renewal)));
    var c := Step(b, UpdateLands(p, true));
    assert Run(b, [UpdateLands(p, true)]) == c;
    assert [Refreshed(p, Some(renewal)), UpdateLands(p, true)][1..] == [UpdateLands(p, true)];
    assert Run(a, [Refreshed(p, Some(renewal)), UpdateLands(p, true)]) == c;
    assert [SaveLands(q, true), Refreshed(p, Some(renewal)), UpdateLands(p, true)][1..]
        == [Refreshed(p, Some(renewal)), UpdateLands(p, true)];
    assert Run(s, [SaveLands(q, true), Refreshed(p, Some(renewal)), UpdateLands(p, true)]) == c;
    assert Table(a)[s.procs[p].user] == s.procs[q].token;
    assert Table(c) == T.Apply(Table(a), T.Op.UpdateAccess(s.procs[p].user, renewal.access, renewal.expiresAt));
  }

  // ----- reached from the empty stores -----

  lemma {:induction false} RunConcat(s: Sys, a: seq<Event>, b: seq<Event>)
    ensures Run(s, a + b) == Run(Run(s, a), b)
    decreases |a|
  {
    hide Step;
    if a == [] {
      assert a + b == b;
    } else {
      assert (a + b)[1..] == a[1..] + b;
      RunConcat(Step(s, a[0]), a[1..], b);
    }
  }

  lemma RunTwo(s: Sys, e: Event, d: Event)
    ensures Run(s, [e, d]) == Step(Step(s, e), d)
  {
    hide Step;
    assert [e, d][1..] == [d] && Run(Step(s, e), [d]) == Step(Step(s, e), d);
  }

  /** A consent up to its save. */
  function Consent(p: nat, user: string, state: string, grant: Grant): seq<Event> {
    [Issue(user, state), Callback(p, state), Exchanged(p, Some(grant), [])]
  }

  lemma ConsentReachesSave(s: Sys, p: nat, user: string, state: string, grant: Grant)
    requires p !in s.procs && O.Issues(s.states, state) == 0
    ensures var t := Run(s, Consent(p, user, state, grant));
            && t.procs == s.procs[p := Saving(state, user, TokenOf(grant, []))] && t.tokens == s.tokens && t.now == s.now
            && forall other: string :: other != state ==> O.Issues(t.states, other) == O.Issues(s.states, other)
  {
    var a := Step(s, Issue(user, state));
    var b := Step(a, Callback(p, state));
    var c := Step(b, Exchanged(p, Some(grant), []));
    assert ConsumedBy(a, state) == Some(user);
    assert c.procs == s.procs[p := Saving(state, user, TokenOf(grant, []))];
    hide Step, ConsumedBy;
    RunTwo(a, Callback(p, state), Exchanged(p, Some(grant), []));
    assert Consent(p, user, state, grant)[1..] == [Callback(p, state), Exchanged(p, Some(grant), [])];
  }

  /** It does happen: the user disconnects while Google's answer is being stored, and is connected afterwards. */
  lemma DisconnectOvertaken(user: string, state: string, grant: Grant)
    requires grant.refresh != []
    ensures user in Table(Run(INIT, Consent(1, user, state, grant) + [Disconnect(user), SaveLands(1, true)]))
  {
    ConsentReachesSave(INIT, 1, user, state, grant);
    hide Run, Consent;
    var s := Run(INIT, Consent(1, user, state, grant));
    RunConcat(INIT, Consent(1, user, state, grant), [Disconnect(user), SaveLands(1, true)]);
    RunTwo(s, Disconnect(user), SaveLands(1, true));
    SaveConnectsIff(Step(s, Disconnect(user)), 1);
  }

  /** A first consent is saved, and a refresh of it is under way. */
  function RefreshUnderWay(user: string, state: string, grant: Grant): seq<Event> {
    Consent(1, user, state, grant) + [SaveLands(1, true), Access(2, user, true)]
  }

  lemma RefreshGetsUnderWay(user: string, state: string, grant: Grant)
    requires grant.refresh != [] && grant.expiresAt == None
    ensures var s := Run(INIT, RefreshUnderWay(user, state, grant));
            && s.procs.Keys == {1, 2} && s.procs[2] == Refreshing(user, grant.refresh)
            && forall other: string :: other != state ==> O.Issues(s.states, other) == 0
  {
    var a := Run(INIT, Consent(1, user, state, grant));
    ConsentReachesSave(INIT, 1, user, state, grant);
    RunConcat(INIT, Consent(1, user, state, grant), [SaveLands(1, true), Access(2, user, true)]);
    RunTwo(a, SaveLands(1, true), Access(2, user, true));
    hide Run, Consent;
    var b := Step(a, SaveLands(1, true));
    assert Table(b) == T.Apply(Table(a), T.Op.Save(user, TokenOf(grant, []))) && Table(b)[user] == TokenOf(grant, []);
    assert b.procs.Keys == {1};
  }

  /** It does happen: in the end the new refresh token stands beside an access token minted from the old one. */
  lemma GrantsDoMix(user: string, states: (string, string), earlier: Grant, newer: Grant, renewal: Renewal)
    requires states.0 != states.1 && earlier.refresh != [] && newer.refresh != [] && earlier.expiresAt == None
    ensures var events := RefreshUnderWay(user, states.0, earlier) + Consent(3, user, states.1, newer)
                          + [SaveLands(3, true), Refreshed(2, Some(renewal)), UpdateLands(2, true)];
            var t := Run(INIT, events);
            && 2 in Run(INIT, RefreshUnderWay(user, states.0, earlier)).procs
            && Run(INIT, RefreshUnderWay(user, states.0, earlier)).procs[2] == Refreshing(user, earlier.refresh)
            && user in Table(t) && Table(t)[user].refresh == newer.refresh && Table(t)[user].access == renewal.access
  {
    var first := RefreshUnderWay(user, states.0, earlier);
    var second := Consent(3, user, states.1, newer);
    var late := [SaveLands(3, true), Refreshed(2, Some(renewal)), UpdateLands(2, true)];
    RefreshGetsUnderWay(user, states.0, earlier);
    var s := Run(INIT, first);
    ConsentReachesSave(s, 3, user, states.1, newer);
    RunConcat(INIT, first, second);
    RunConcat(INIT, first + second, late);
    hide Run, Consent, RefreshUnderWay, Table;
    LateRefreshMixesGrants(Run(s, second), 2, 3, renewal);
  }

  /**
    In general: when a refresh lands, its access token is stored exactly if the user is connected then, beside the refresh
    token that is the last one saved by then; the two belong together exactly if that is the one the refresh was made with.
   */
  lemma UpdateLandsOn(s: Sys, p: nat)
    requires p in s.procs && s.procs[p].Updating?
    ensures var user := s.procs[p].user; var t := Step(s, UpdateLands(p, true));
            && (user in Table(t) <==> user in Table(s))
            && (user in Table(s) ==>
                  && Table(t)[user].access == s.procs[p].renewal.access && Table(t)[user].expiresAt == s.procs[p].renewal.expiresAt
                  && Table(t)[user].scopes == Table(s)[user].scopes
                  && Some(Table(t)[user].refresh) == T.LastRefresh(s.tokens, user)
                  && (Table(t)[user].refresh == s.procs[p].refresh <==> T.LastRefresh(s.tokens, user) == Some(s.procs[p].refresh)))
            && forall other <- Table(s) | other != user :: other in Table(t) && Table(t)[other] == Table(s)[other]
  {
    T.StoredIs(s.tokens, s.procs[p].user);
  }
}
