/**
 * The `protect` middleware of backend/src/middleware/auth.js: it reads the
 * Authorization header, takes the second space-separated field as the token,
 * verifies it, looks the user up, and either answers 401 or stores the user
 * on the request and calls `next`.
 *
 * `verify` stands for `jwt.verify` with the server's secret (None when it
 * throws) and `lookup` for `User.findById(id).select('-password')`.
 */
module AuthMiddleware {
  import opened Base

  const NoTokenMessage := "Não autorizado, token não encontrado"
  const BadTokenMessage := "Token inválido"

  /** A user document without its password. */
  datatype User = User(id: string, name: string, email: string)

  /** The decoded token payload. */
  datatype Claims = Claims(id: string)

  /** The outcome of the user lookup: a user, null, or an exception. */
  datatype Lookup = Found(user: User) | NotFound | LookupThrows

  /** `String.prototype.split(' ')`: the fields between single spaces, at least one. */
  function Split(s: string): (fields: seq<string>)
    ensures |fields| >= 1
  {
    if s == [] then [""]
    else
      var rest := Split(s[1..]);
      if s[0] == ' ' then [""] + rest else [[s[0]] + rest[0]] + rest[1..]
  }

  /** `fields.join(' ')`. */
  function Join(fields: seq<string>): string
    requires |fields| >= 1
  {
    if |fields| == 1 then fields[0] else fields[0] + " " + Join(fields[1..])
  }

  /** Splitting loses nothing: the fields hold no space and joining them gives the header back. */
  lemma {:induction false} SplitJoin(s: string)
    ensures Join(Split(s)) == s
    ensures forall i :: 0 <= i < |Split(s)| ==> ' ' !in Split(s)[i]
  {
    if s != [] {
      SplitJoin(s[1..]);
      var rest := Split(s[1..]);
      if s[0] != ' ' {
        assert [s[0]] + rest[0] + " " == [s[0]] + (rest[0] + " ");
        if |rest| > 1 {
          assert Join([[s[0]] + rest[0]] + rest[1..]) == [s[0]] + rest[0] + " " + Join(rest[1..]);
        }
        assert s == [s[0]] + s[1..];
      } else {
        assert s == " " + s[1..];
      }
    }
  }

  /** A first field without spaces is split off whole. */
  lemma {:induction false} SplitAfterWord(a: string, r: string)
    requires ' ' !in a
    ensures Split(a + r) == [a + Split(r)[0]] + Split(r)[1..]
  {
    if a == [] {
      assert a + r == r && a + Split(r)[0] == Split(r)[0];
      assert Split(r) == [Split(r)[0]] + Split(r)[1..];
    } else {
      SplitAfterWord(a[1..], r);
      assert (a + r)[0] == a[0] && (a + r)[1..] == a[1..] + r;
      assert [a[0]] + (a[1..] + Split(r)[0]) == a + Split(r)[0];
    }
  }

  /** The token: `authorization.split(' ')[1]`, None for `undefined`. */
  function Token(header: string): Option<string>
  {
    var fields := Split(header);
    if |fields| >= 2 then Some(fields[1]) else None
  }

  /** The token is exactly the text between the first and the second space. */
  lemma TokenOfHeader(scheme: string, t: string, tail: string)
    requires ' ' !in scheme && ' ' !in t
    ensures Token(scheme + " " + t) == Some(t)
    ensures Token(scheme + " " + t + " " + tail) == Some(t)
  {
    SplitAfterWord(scheme, " " + t);
    assert scheme + " " + t == scheme + (" " + t);
    assert (" " + t)[1..] == t;
    SplitAfterWord(t, "");
    assert t + "" == t;
    SplitAfterWord(scheme, " " + t + " " + tail);
    assert (" " + t + " " + tail)[1..] == t + (" " + tail);
    SplitAfterWord(t, " " + tail);
    assert scheme + " " + t + " " + tail == scheme + (" " + t + " " + tail);
  }

  /** A header without a space has no second field, so the token is `undefined`. */
  lemma {:induction false} NoSpaceNoToken(header: string)
    requires ' ' !in header
    ensures Token(header).None?
  {
    SplitAfterWord(header, "");
    assert header + "" == header;
  }

  /** The header is present and starts with `Bearer` (no space is required after it). */
  predicate IsBearer(header: Option<string>)
  {
    header.Some? && header.value != "" && "Bearer" <= header.value
  }

  /** What `protect` does with a request: answer 401 with a message, or pass it on with `req.user`. */
  datatype Decision = Reject(message: string) | Admit(user: Option<User>)

  /**
   * The decision. A missing or non-Bearer header gets the not-found message;
   * a token that is undefined or fails verification, or a lookup that throws,
   * gets the invalid-token message; otherwise the request goes on with the
   * lookup's result, null included.
   */
  function Decide(header: Option<string>, verify: string -> Option<Claims>, lookup: string -> Lookup)
    : (d: Decision)
    ensures d == Reject(NoTokenMessage) <==> !IsBearer(header)
    ensures d == Reject(BadTokenMessage) <==>
              IsBearer(header)
              && (|| Token(header.value).None?
                  || verify(Token(header.value).value).None?
                  || lookup(verify(Token(header.value).value).value.id).LookupThrows?)
    ensures d.Reject? ==> d.message == NoTokenMessage || d.message == BadTokenMessage
    ensures d.Admit? ==>
              && IsBearer(header)
              && Token(header.value).Some?
              && verify(Token(header.value).value).Some?
              && var found := lookup(verify(Token(header.value).value).value.id);
                 d.user == if found.Found? then Some(found.user) else None
  {
    if !IsBearer(header) then Reject(NoTokenMessage)
    else
      var token := Token(header.value);
      if token.None? then Reject(BadTokenMessage)
      else
        var decoded := verify(token.value);
        if decoded.None? then Reject(BadTokenMessage)
        else
          var found := lookup(decoded.value.id);
          if found.LookupThrows? then Reject(BadTokenMessage)
          else Admit(if found.Found? then Some(found.user) else None)
  }

  /** The request and response objects one call of `protect` sees, and the calls it makes to `next`. */
  class Exchange {
    /** `req.headers.authorization`. */
    const authorization: Option<string>
    /** `req.user`: None while unassigned, Some(None) when assigned null. */
    var user: Option<Option<User>>
    /** The status set on `res`, if any. */
    var status: Option<int>
    /** The `message` of the JSON body sent, if any. */
    var message: Option<string>
    /** How many times `next` has been called. */
    var nextCalls: nat

    constructor (authorization: Option<string>)
      ensures this.authorization == authorization
      ensures user == None && status == None && message == None && nextCalls == 0
    {
      this.authorization := authorization;
      user, status, message, nextCalls := None, None, None, 0;
    }

    /** `res.status(code).json({ message })`. */
    method Respond(code: int, text: string)
      modifies this
      ensures status == Some(code) && message == Some(text)
      ensures user == old(user) && nextCalls == old(nextCalls)
    {
      status, message := Some(code), Some(text);
    }
  }

  /** The middleware itself: exactly one of the two 401 replies, or `req.user` set and `next` called once. */
  method Protect(ex: Exchange, verify: string -> Option<Claims>, lookup: string -> Lookup)
    modifies ex
    ensures Decide(ex.authorization, verify, lookup).Reject? ==>
              && ex.status == Some(401)
              && ex.message == Some(Decide(ex.authorization, verify, lookup).message)
              && ex.user == old(ex.user)
              && ex.nextCalls == old(ex.nextCalls)
    ensures Decide(ex.authorization, verify, lookup).Admit? ==>
              && ex.user == Some(Decide(ex.authorization, verify, lookup).user)
              && ex.nextCalls == old(ex.nextCalls) + 1
              && ex.status == old(ex.status)
              && ex.message == old(ex.message)
  {
    var token: Option<string> := None;
    if IsBearer(ex.authorization) {
      token := Token(ex.authorization.value);
      // jwt.verify throws for an undefined token as for one it rejects.
      var decoded := if token.Some? then verify(token.value) else None;
      if decoded.None? {
        ex.Respond(401, BadTokenMessage);
        return;
      }
      var found := lookup(decoded.value.id);
      if found.LookupThrows? {
        ex.Respond(401, BadTokenMessage);
        return;
      }
      ex.user := Some(if found.Found? then Some(found.user) else None);
      ex.nextCalls := ex.nextCalls + 1;
    } else {
      ex.Respond(401, NoTokenMessage);
    }
  }
}
