/**
 * AuthMiddleware: a request passes only with a `Bearer ` header whose token verifies to a
 * user whose stored `currentToken` is that very token. Token verification is an
 * uninterpreted function from a token to the id it was signed for.
 */
module AuthMiddleware {
  import opened Common
  import opened UserModel
  import opened UserService

  /** The index of the first space in `s`, or `|s|` when there is none. */
  function IndexOfSpace(s: string): (i: nat)
    ensures i <= |s|
    ensures i < |s| ==> s[i] == ' '
    ensures forall j :: 0 <= j < i ==> s[j] != ' '
  {
    if s == [] || s[0] == ' ' then 0 else 1 + IndexOfSpace(s[1..])
  }

  /** `s.split(" ")`: the pieces between single spaces, empty pieces included. */
  function Split(s: string): (parts: seq<string>)
    ensures |parts| >= 1
    ensures forall k :: 0 <= k < |parts| ==> ' ' !in parts[k]
    decreases |s|
  {
    var i := IndexOfSpace(s);
    if i == |s| then [s]
    else [s[..i]] + Split(s[i + 1..])
  }

  /** `parts.join(" ")`. */
  function JoinSpaces(parts: seq<string>): string
    requires |parts| >= 1
  {
    if |parts| == 1 then parts[0] else parts[0] + " " + JoinSpaces(parts[1..])
  }

  /** Splitting loses nothing: joining the pieces with spaces gives the string back. */
  lemma {:induction false} SplitJoin(s: string)
    ensures JoinSpaces(Split(s)) == s
    decreases |s|
  {
    var i := IndexOfSpace(s);
    if i < |s| {
      var tail := Split(s[i + 1..]);
      SplitCons(s);
      JoinCons(s[..i], tail);
      SplitJoin(s[i + 1..]);
      assert s == s[..i] + " " + s[i + 1..];
    } else {
      assert Split(s) == [s];
    }
  }

  /** A string with a space splits into the piece before it and the pieces after it. */
  lemma {:induction false} SplitCons(s: string)
    requires IndexOfSpace(s) < |s|
    ensures Split(s) == [s[..IndexOfSpace(s)]] + Split(s[IndexOfSpace(s) + 1..])
  {
    var i := IndexOfSpace(s);
    assert i != |s|;
    var r := Split(s);
    assert r == [s[..i]] + Split(s[i + 1..]);
  }

  lemma {:induction false} JoinCons(head: string, tail: seq<string>)
    requires |tail| >= 1
    ensures JoinSpaces([head] + tail) == head + " " + JoinSpaces(tail)
  {
    assert ([head] + tail)[1..] == tail;
  }

  predicate StartsWithBearer(h: string)
  {
    |h| >= 7 && h[..7] == "Bearer "
  }

  /** `authHeader.split(" ")[1]`; a header starting with "Bearer " always has a second piece. */
  function TokenOf(h: string): (token: string)
    requires StartsWithBearer(h)
    ensures ' ' !in token
    ensures token == h[7..7 + IndexOfSpace(h[7..])]
  {
    BearerPieces(h);
    Split(h)[1]
  }

  lemma {:induction false} BearerPieces(h: string)
    requires StartsWithBearer(h)
    ensures |Split(h)| >= 2 && Split(h)[0] == "Bearer" && Split(h)[1] == h[7..7 + IndexOfSpace(h[7..])]
  {
    assert h[..6] == "Bearer";
    assert IndexOfSpace(h) == 6 by {
      assert h[6] == ' ';
      assert forall j :: 0 <= j < 6 ==> h[j] != ' ' by {
        assert forall j :: 0 <= j < 6 ==> h[j] == "Bearer"[j];
      }
      IndexOfSpaceIsFirst(h, 6);
    }
    SplitPieces(h);
    var rest := h[7..];
    SplitPieces(rest);
    assert rest[..IndexOfSpace(rest)] == h[7..7 + IndexOfSpace(rest)];
  }

  /** The first piece runs up to the first space, and the others are the pieces after it. */
  lemma {:induction false} SplitPieces(s: string)
    ensures Split(s)[0] == s[..IndexOfSpace(s)]
    ensures IndexOfSpace(s) < |s| ==> Split(s)[1..] == Split(s[IndexOfSpace(s) + 1..])
  {
  }

  lemma {:induction false} IndexOfSpaceIsFirst(s: string, i: nat)
    requires i < |s| && s[i] == ' ' && forall j :: 0 <= j < i ==> s[j] != ' '
    ensures IndexOfSpace(s) == i
  {
    if IndexOfSpace(s) < i {
      assert s[IndexOfSpace(s)] == ' ';
    }
  }

  /** The header a client sends for a token, read back: a token without spaces survives. */
  lemma {:induction false} BearerRoundTrip(token: string)
    requires ' ' !in token
    ensures StartsWithBearer("Bearer " + token) && TokenOf("Bearer " + token) == token
  {
    var h := "Bearer " + token;
    assert h[..7] == "Bearer ";
    assert h[7..] == token;
    assert IndexOfSpace(token) == |token|;
  }

  /** What the middleware does with a request. */
  datatype Outcome = Accepted(id: UserId) | Rejected(status: int, message: string)

  /** The middleware's decision: the header check, the signature check, and the comparison
      with the user's one active token. */
  function Authenticate(header: Option<string>, users: Users, verify: string -> Option<UserId>): (o: Outcome)
    ensures o.Rejected? ==> o.status == 401
    ensures (header.None? || !StartsWithBearer(header.value)) ==> o == Rejected(401, "No token, authorization denied")
    ensures header.Some? && StartsWithBearer(header.value) ==>
              var token := TokenOf(header.value);
              && (verify(token).None? ==> o == Rejected(401, "Unauthorized"))
              && (verify(token).Some? && (verify(token).value !in users || users[verify(token).value].currentToken != Some(token))
                  ==> o == Rejected(401, "Session expired or logged in elsewhere. Please login again."))
              && (verify(token).Some? && verify(token).value in users && users[verify(token).value].currentToken == Some(token)
                  ==> o == Accepted(verify(token).value))
    ensures o.Accepted? ==>
              && header.Some? && StartsWithBearer(header.value)
              && verify(TokenOf(header.value)) == Some(o.id)
              && o.id in users
              && users[o.id].currentToken == Some(TokenOf(header.value))
  {
    if header.None? || !StartsWithBearer(header.value) then Rejected(401, "No token, authorization denied")
    else
      var token := TokenOf(header.value);
      var decoded := verify(token);
      if decoded.None? then Rejected(401, "Unauthorized")
      else if decoded.value !in users || users[decoded.value].currentToken != Some(token) then
        Rejected(401, "Session expired or logged in elsewhere. Please login again.")
      else Accepted(decoded.value)
  }

  /** The token a sign-in just recorded opens the door. */
  lemma {:induction false} AcceptedAfterSignIn(users: Users, id: UserId, token: string, verify: string -> Option<UserId>)
    requires id in users && ' ' !in token && verify(token) == Some(id)
    ensures Authenticate(Some("Bearer " + token), WithToken(users, id, token), verify) == Accepted(id)
  {
    BearerRoundTrip(token);
  }

  /** After a sign-in records `latest`, no other token is accepted for that user. */
  lemma {:induction false} OnlyLatestToken(users: Users, id: UserId, latest: string, header: Option<string>, verify: string -> Option<UserId>)
    requires id in users
    requires Authenticate(header, WithToken(users, id, latest), verify) == Accepted(id)
    ensures TokenOf(header.value) == latest
  {
  }

  /** An earlier token is rejected once a later, different one has been recorded. */
  lemma {:induction false} EarlierTokenRejected(users: Users, id: UserId, earlier: string, later: string, verify: string -> Option<UserId>)
    requires id in users && ' ' !in earlier && earlier != later
    requires verify(earlier) == Some(id)
    ensures Authenticate(Some("Bearer " + earlier), WithToken(WithToken(users, id, earlier), id, later), verify)
            == Rejected(401, "Session expired or logged in elsewhere. Please login again.")
  {
    BearerRoundTrip(earlier);
  }

  /** The request as the middleware sees it: the header it came with, and the authenticated
      user the middleware attaches to it. */
  class Request {
    const authorization: Option<string>
    var user: Option<UserId>

    constructor (authorization: Option<string>)
      ensures this.authorization == authorization && user.None?
    {
      this.authorization := authorization;
      user := None;
    }
  }

  /** The response as far as the middleware writes it: a status and an error message. */
  class Response {
    var status: Option<int>
    var message: Option<string>

    constructor ()
      ensures status.None? && message.None?
    {
      status := None;
      message := None;
    }
  }

  /** `AuthMiddleware(req, res, next)`: on acceptance `req.user` is set, the response is left
      alone and `next` is called; otherwise a 401 is sent and `next` is not called.
      `calledNext` says whether `next` was called. */
  method Run(req: Request, res: Response, users: Users, verify: string -> Option<UserId>) returns (calledNext: bool)
    modifies req, res
    ensures var o := Authenticate(req.authorization, users, verify);
            && (calledNext <==> o.Accepted?)
            && (o.Accepted? ==> req.user == Some(o.id) && res.status == old(res.status) && res.message == old(res.message))
            && (o.Rejected? ==> res.status == Some(401) && res.message == Some(o.message) && req.user == old(req.user))
  {
    var o := Authenticate(req.authorization, users, verify);
    match o
    case Accepted(id) =>
      req.user := Some(id);
      calledNext := true;
    case Rejected(status, message) =>
      res.status := Some(status);
      res.message := Some(message);
      calledNext := false;
  }
}
