/** A user's tokens as a plain map, and what a history of operations on it means. */
module Tokens {
  import opened Wrappers
  import opened Histories
  import opened Cryptobox

  /** `refresh` and `access` are empty where there is none. */
  datatype Token = Token(refresh: Bytes, access: Bytes, expiresAt: Option<int>, scopes: seq<string>)

  type Table = map<string, Token>

  datatype Op =
    | Save(user: string, token: Token)
    | UpdateAccess(user: string, access: Bytes, expiresAt: Option<int>)
    | Delete(user: string)

  /** A save without a refresh token keeps the one there is; for an unknown user it does nothing. */
  function Apply(m: Table, op: Op): Table {
    match op
    case Save(user, token) =>
      if token.refresh != [] then m[user := token]
      else if user in m then m[user := token.(refresh := m[user].refresh)]
      else m
    case UpdateAccess(user, access, expiresAt) =>
      if user in m then m[user := m[user].(access := access, expiresAt := expiresAt)] else m
    case Delete(user) => m - {user}
  }

  function After(log: Log<Op>): Table {
    match log
    case Empty => map[]
    case Snoc(past, op) => Apply(After(past), op)
  }

  // ----- the meaning of a history, without any map -----

  predicate Connects(op: Op, user: string) {
    op.Save? && op.user == user && op.token.refresh != []
  }

  /** The last refresh token saved for the user since the last delete. */
  function LastRefresh(log: Log<Op>, user: string): Option<Bytes> {
    match log
    case Empty => None
    case Snoc(past, op) =>
      if Connects(op, user) then Some(op.token.refresh)
      else if op == Delete(user) then None
      else LastRefresh(past, user)
  }

  /** The access token written last for the user, by a save or by a refresh. */
  function LastAccess(log: Log<Op>, user: string): (Bytes, Option<int>) {
    match log
    case Empty => ([], None)
    case Snoc(past, op) =>
      if op.Save? && op.user == user then (op.token.access, op.token.expiresAt)
      else if op.UpdateAccess? && op.user == user then (op.access, op.expiresAt)
      else LastAccess(past, user)
  }

  function LastScopes(log: Log<Op>, user: string): seq<string> {
    match log
    case Empty => []
    case Snoc(past, op) => if op.Save? && op.user == user then op.token.scopes else LastScopes(past, user)
  }

  /**
    What is stored for a user after any history: nothing unless a refresh token was saved since the last delete; then the
    last such refresh token, the last access token of any save or refresh, and the scopes of the last save.
   */
  lemma {:induction false} StoredIs(log: Log<Op>, user: string)
    ensures user in After(log) <==> LastRefresh(log, user).Some?
    ensures user in After(log) ==>
              && After(log)[user].refresh == LastRefresh(log, user).value != []
              && (After(log)[user].access, After(log)[user].expiresAt) == LastAccess(log, user)
              && After(log)[user].scopes == LastScopes(log, user)
    decreases log
  {
    if log.Snoc? {
      StoredIs(log.past, user);
    }
  }

  /** `log` continues `past`, and no operation since is a save of this user with a refresh token. */
  predicate NoConsentSince(past: Log<Op>, log: Log<Op>, user: string) {
    log == past || (log.Snoc? && !Connects(log.last, user) && NoConsentSince(past, log.past, user))
  }

  /** After a delete only a save with a refresh token connects the user again, whatever refreshes land late. */
  lemma {:induction false} StaysDisconnected(past: Log<Op>, log: Log<Op>, user: string)
    requires NoConsentSince(Snoc(past, Delete(user)), log, user)
    ensures user !in After(log)
    decreases log
  {
    if log != Snoc(past, Delete(user)) {
      StaysDisconnected(past, log.past, user);
    }
  }

  /** A user is connected exactly if a save with a refresh token is in the history, and no delete since. */
  lemma {:induction false} ConnectedIff(log: Log<Op>, user: string)
    ensures user in After(log) <==> exists past: Log<Op>, token: Token ::
              token.refresh != [] && NoDeleteSince(Snoc(past, Save(user, token)), log, user)
    decreases log
  {
    match log
    case Empty =>
    case Snoc(before, op) =>
      ConnectedIff(before, user);
      if user in After(before) && op != Delete(user) {
        var past: Log<Op>, token: Token :| token.refresh != [] && NoDeleteSince(Snoc(past, Save(user, token)), before, user);
        assert NoDeleteSince(Snoc(past, Save(user, token)), log, user);
      }
      if Connects(op, user) {
        assert NoDeleteSince(Snoc(before, Save(user, op.token)), log, user);
      }
  }

  predicate NoDeleteSince(past: Log<Op>, log: Log<Op>, user: string) {
    log == past || (log.Snoc? && log.last != Delete(user) && NoDeleteSince(past, log.past, user))
  }
}

/** `PgTokenStore`: the same table with sealed tokens. `up` says whether the database answers. */
module TokenStore {
  import opened Wrappers
  import opened Cryptobox
  import opened Tokens

  datatype StoreError = Unavailable | NoTokens | Sealing(message: string)

  datatype Row = Row(refreshCt: Bytes, accessCt: Bytes, expiresAt: Option<int>, scopes: seq<string>)

  datatype TokenStatus = TokenStatus(connected: bool, scopes: seq<string>)

  /** A row opens under the key of `box`; one sealed under another key, or damaged, does not. */
  predicate Readable(box: Aead, row: Row) {
    Opens(box, row.refreshCt) && Opens(box, row.accessCt)
  }

  function Plaintext(box: Aead, row: Row): Token
    requires Readable(box, row)
  {
    Token(Hidden(box, row.refreshCt), Hidden(box, row.accessCt), row.expiresAt, row.scopes)
  }

  /** The table in the clear, as far as its rows open. */
  function View(box: Aead, rows: map<string, Row>): Table {
    map user | user in rows && Readable(box, rows[user]) :: Plaintext(box, rows[user])
  }

  lemma ViewWrite(box: Aead, rows: map<string, Row>, user: string, row: Row)
    requires Readable(box, row)
    ensures View(box, rows[user := row]) == View(box, rows)[user := Plaintext(box, row)]
  {
    hide Readable, Plaintext;
  }

  lemma ViewRemove(box: Aead, rows: map<string, Row>, user: string)
    ensures View(box, rows - {user}) == View(box, rows) - {user}
  {
    hide Readable, Plaintext;
  }

  lemma ViewAt(box: Aead, rows: map<string, Row>, user: string)
    ensures user in View(box, rows) <==> user in rows && Readable(box, rows[user])
    ensures user in View(box, rows) ==> View(box, rows)[user] == Plaintext(box, rows[user])
  {
  }

  class PgTokenStore {
    const box: Aead
    var rows: map<string, Row>

    constructor (box: Aead)
      requires Correct(box)
      ensures this.box == box && Valid() && rows == map[] && Contents() == map[]
    {
      this.box := box;
      rows := map[];
    }

    ghost predicate Valid()
      reads this
    {
      Correct(box)
    }

    /** The user's row, if there is one, opens. What happens to it does not depend on anybody else's. */
    predicate Intact(user: string)
      reads this
    {
      user in rows ==> Readable(box, rows[user])
    }

    ghost function Contents(): Table
      reads this
    {
      View(box, rows)
    }

    /** Every text has the nonce that was drawn for it. */
    predicate SealedWith(nonce: Bytes, plain: Bytes, ct: Bytes) {
      ct == nonce + box.encrypt(nonce, plain)
    }

    /** With a refresh token the row is written anew, whatever was there before. */
    method Save(user: string, token: Token, accessRandom: Option<Bytes>, refreshRandom: Option<Bytes>, up: bool)
      returns (r: Result<(), StoreError>)
      requires Valid() && Draws(box, accessRandom) && Draws(box, refreshRandom)
      modifies this
      ensures r.Ok? <==> up && (token.access == [] || accessRandom.Some?) && (token.refresh == [] || refreshRandom.Some?)
      ensures r.Err? ==> rows == old(rows)
      ensures rows - {user} == old(rows) - {user}
      ensures r.Ok? && user in rows && token.access != [] ==> SealedWith(accessRandom.value, token.access, rows[user].accessCt)
      ensures r.Ok? && token.refresh != [] ==>
                user in rows && SealedWith(refreshRandom.value, token.refresh, rows[user].refreshCt)
      ensures r.Ok? && (token.refresh != [] || old(Intact(user))) ==>
                Intact(user) && Contents() == Apply(old(Contents()), Op.Save(user, token))
    {
      OpenAfterSeal(box, accessRandom, token.access);
      OpenAfterSeal(box, refreshRandom, token.refresh);
      ViewAt(box, rows, user);
      hide Correct, Open, Opens, Hidden, View;
      var accessCt := Seal(box, accessRandom, token.access);
      if accessCt.Err? {
        return Err(Sealing(accessCt.error));
      }
      if token.refresh == [] {
        if !up {
          return Err(Unavailable);
        }
        if user in rows {
          var row := rows[user].(accessCt := accessCt.value, expiresAt := token.expiresAt, scopes := token.scopes);
          if Readable(box, rows[user]) {
            ViewWrite(box, rows, user, row);
          }
          rows := rows[user := row];
        }
        return Ok(());
      }
      var refreshCt := Seal(box, refreshRandom, token.refresh);
      if refreshCt.Err? {
        return Err(Sealing(refreshCt.error));
      }
      if !up {
        return Err(Unavailable);
      }
      var row := Row(refreshCt.value, accessCt.value, token.expiresAt, token.scopes);
      ViewWrite(box, rows, user, row);
      rows := rows[user := row];
      return Ok(());
    }

    /** An unreadable row is reported. */
    method Load(user: string, up: bool) returns (r: Result<Token, StoreError>)
      ensures !up ==> r == Err(Unavailable)
      ensures up && user !in rows ==> r == Err(NoTokens)
      ensures up && !Intact(user) ==> r.Err? && r.error.Sealing?
      ensures up && user in rows && Intact(user) ==> user in Contents() && r == Ok(Contents()[user])
    {
      if !up {
        return Err(Unavailable);
      }
      if user !in rows {
        return Err(NoTokens);
      }
      var row := rows[user];
      var access := Open(box, row.accessCt);
      if access.Err? {
        return Err(Sealing(access.error));
      }
      var refresh := Open(box, row.refreshCt);
      if refresh.Err? {
        return Err(Sealing(refresh.error));
      }
      return Ok(Token(refresh.value, access.value, row.expiresAt, row.scopes));
    }

    method UpdateAccess(user: string, access: Bytes, expiresAt: Option<int>, random: Option<Bytes>, up: bool)
      returns (r: Result<(), StoreError>)
      requires Valid() && Draws(box, random)
      modifies this
      ensures r.Ok? <==> up && (access == [] || random.Some?)
      ensures r.Err? ==> rows == old(rows)
      ensures rows.Keys == old(rows).Keys && rows - {user} == old(rows) - {user}
      ensures r.Ok? && user in rows && access != [] ==> SealedWith(random.value, access, rows[user].accessCt)
      ensures r.Ok? && old(Intact(user)) ==>
                Intact(user) && Contents() == Apply(old(Contents()), Op.UpdateAccess(user, access, expiresAt))
    {
      OpenAfterSeal(box, random, access);
      ViewAt(box, rows, user);
      hide Correct, Open, Opens, Hidden, View;
      var accessCt := Seal(box, random, access);
      if accessCt.Err? {
        return Err(Sealing(accessCt.error));
      }
      if !up {
        return Err(Unavailable);
      }
      if user in rows {
        var row := rows[user].(accessCt := accessCt.value, expiresAt := expiresAt);
        if Readable(box, rows[user]) {
          ViewWrite(box, rows, user, row);
        }
        rows := rows[user := row];
      }
      return Ok(());
    }

    /** Looks at no token, so an unreadable row counts as connected. */
    method Status(user: string, up: bool) returns (r: Result<TokenStatus, StoreError>)
      ensures !up ==> r == Err(Unavailable)
      ensures up ==> r == Ok(TokenStatus(user in rows, if user in rows then rows[user].scopes else []))
      ensures up && Intact(user) ==>
                && r.value.connected == (user in Contents())
                && r.value.scopes == if user in Contents() then Contents()[user].scopes else []
    {
      if !up {
        return Err(Unavailable);
      }
      if user !in rows {
        return Ok(TokenStatus(false, []));
      }
      return Ok(TokenStatus(true, rows[user].scopes));
    }

    /** Returns the refresh token in the clear, so that it can be revoked. The row is gone even if it does not open. */
    method Delete(user: string, up: bool) returns (r: Result<Bytes, StoreError>)
      modifies this
      ensures rows == if up then old(rows) - {user} else old(rows)
      ensures Contents() == if up then Apply(old(Contents()), Op.Delete(user)) else old(Contents())
      ensures !up ==> r == Err(Unavailable)
      ensures up && user !in old(rows) ==> r == Err(NoTokens)
      ensures up && user in old(rows) ==>
                if Opens(box, old(rows)[user].refreshCt) then r == Ok(Hidden(box, old(rows)[user].refreshCt))
                else r.Err? && r.error.Sealing?
      ensures up && user in old(Contents()) ==> r == Ok(old(Contents())[user].refresh)
    {
      if !up {
        return Err(Unavailable);
      }
      ViewRemove(box, rows, user);
      if user !in rows {
        assert rows - {user} == rows;
        return Err(NoTokens);
      }
      var refreshCt := rows[user].refreshCt;
      rows := rows - {user};
      var refresh := Open(box, refreshCt);
      if refresh.Err? {
        return Err(Sealing(refresh.error));
      }
      return Ok(refresh.value);
    }
  }
}
