/**
 * The request-scoped view of a session that the session manager hands to
 * middleware and handlers: a key-value bag and an opaque token. Loading,
 * saving and expiry are the store's business and are not modelled.
 */
module Sessions {
  import opened Wrappers

  /** The session token; its 32 random bytes are abstracted to a number. */
  type Token = nat

  /** The two kinds of value this program stores. */
  datatype Value = IntValue(i: int) | StringValue(s: string)

  const USER_ID_KEY := "authenticatedUserId"
  const FLASH_KEY := "flash"

  /**
   * The token that renewal installs: a freshly drawn token, never the
   * current one (a draw equal to the current token is bumped so that
   * renewal always rotates).
   */
  function Rotate(current: Token, draw: Token): (t: Token)
    ensures t != current
    ensures draw != current ==> t == draw
  {
    if draw != current then draw else current + 1
  }

  datatype Session = Session(token: Token, values: map<string, Value>)
  {
    /** `GetInt`: the stored int, or 0 when the key is absent or holds another type. */
    function GetInt(key: string): (n: int)
      ensures n != 0 ==> key in values && values[key] == IntValue(n)
      ensures key in values && values[key].IntValue? ==> n == values[key].i
    {
      if key in values && values[key].IntValue? then values[key].i else 0
    }

    function Put(key: string, v: Value): (s: Session)
      ensures s.token == token && key in s.values && s.values[key] == v
      ensures forall k :: k != key ==> (k in s.values <==> k in values)
      ensures forall k :: k != key && k in values ==> s.values[k] == values[k]
    {
      this.(values := values[key := v])
    }

    function Remove(key: string): (s: Session)
      ensures s.token == token && key !in s.values
      ensures forall k :: k != key ==> (k in s.values <==> k in values)
      ensures forall k :: k != key && k in values ==> s.values[k] == values[k]
    {
      this.(values := values - {key})
    }

    /** The string `PopString` returns: the stored string, or "" for an absent or non-string value. */
    function PeekString(key: string): string
    {
      if key in values && values[key].StringValue? then values[key].s else ""
    }

    /** The session after a successful `RenewToken`: new token, same data. */
    function Renew(draw: Token): (s: Session)
      ensures s.token != token && s.values == values
    {
      this.(token := Rotate(token, draw))
    }
  }

  /**
   * `RenewToken` with the store's outcome: None when the store failed to
   * delete the old token (the session is then left as it was).
   */
  function Renewed(s: Session, draw: Option<Token>): (r: Option<Session>)
    ensures r.Some? <==> draw.Some?
    ensures r.Some? ==> r.value.token != s.token && r.value.values == s.values
  {
    match draw
    case None => None
    case Some(t) => Some(s.Renew(t))
  }

  /** The session data loaded for the current request, updated in place by its users. */
  class SessionData {
    var token: Token
    var values: map<string, Value>

    function Snapshot(): Session
      reads this
    {
      Session(token, values)
    }

    constructor (s: Session)
      ensures Snapshot() == s
    {
      token, values := s.token, s.values;
    }

    method GetInt(key: string) returns (n: int)
      ensures n == Snapshot().GetInt(key)
    {
      n := if key in values && values[key].IntValue? then values[key].i else 0;
    }

    method Put(key: string, v: Value)
      modifies this
      ensures Snapshot() == old(Snapshot()).Put(key, v)
    {
      values := values[key := v];
    }

    method Remove(key: string)
      modifies this
      ensures Snapshot() == old(Snapshot()).Remove(key)
    {
      values := values - {key};
    }

    /** `PopString`: returns the stored string (or "") and removes the key. */
    method PopString(key: string) returns (str: string)
      modifies this
      ensures str == old(Snapshot()).PeekString(key)
      ensures Snapshot() == old(Snapshot()).Remove(key)
    {
      str := if key in values && values[key].StringValue? then values[key].s else "";
      values := values - {key};
    }

    /** `RenewToken`; `draw` is the store's outcome (None: it failed). */
    method RenewToken(draw: Option<Token>) returns (ok: bool)
      modifies this
      ensures ok == draw.Some?
      ensures ok ==> Snapshot() == Renewed(old(Snapshot()), draw).value
      ensures !ok ==> Snapshot() == old(Snapshot())
    {
      match draw
      case None =>
        ok := false;
      case Some(t) =>
        token := Rotate(token, t);
        ok := true;
    }
  }
}
