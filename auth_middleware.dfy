/**
 * The JWT middleware: it reads the Authorization header, takes the token
 * as the second space-separated field, verifies it, and on success stores
 * the decoded user on the request and passes control on.
 *
 * The signature check is a parameter: `verify(token)` is the decoded user,
 * or `None` when verification reports an error.
 */
module AuthMiddleware {
  import opened Wrappers
  import opened Text

  /** `authHeader.split(" ")[1]`, when that field exists and is not empty. */
  function HeaderToken(header: string): (r: Option<string>)
    ensures r.Some? ==> r.value != "" && ' ' !in r.value
    ensures r.Some? <==> |Split(header, ' ')| >= 2 && Split(header, ' ')[1] != ""
  {
    var fields := Split(header, ' ');
    if |fields| >= 2 && fields[1] != "" then Some(fields[1]) else None
  }

  /**
   * Any first word is accepted as the scheme: a word without spaces, one
   * space and a token give that token, whatever follows another space.
   */
  lemma {:induction false} AnySchemeWord(scheme: string, token: string, rest: string)
    requires ' ' !in scheme && ' ' !in token && token != ""
    ensures HeaderToken(scheme + " " + token) == Some(token)
    ensures HeaderToken(scheme + " " + token + " " + rest) == Some(token)
  {
    SplitAfterFirst(scheme, ' ', token);
    SplitNoSeparator(token, ' ');
    SplitAfterFirst(scheme, ' ', token + " " + rest);
    SplitAfterFirst(token, ' ', rest);
    assert scheme + " " + token + " " + rest == scheme + [' '] + (token + [' '] + rest);
  }

  /** A scheme word alone, or two spaces before the token, gives no token. */
  lemma {:induction false} MissingToken(scheme: string, token: string)
    requires ' ' !in scheme
    ensures HeaderToken(scheme) == None
    ensures HeaderToken(scheme + "  " + token) == None
  {
    SplitNoSeparator(scheme, ' ');
    assert scheme + "  " + token == scheme + [' '] + ([' '] + token);
    SplitAfterFirst(scheme, ' ', [' '] + token);
    SplitAfterFirst([], ' ', token);
    assert [] + [' '] + token == [' '] + token;
  }

  /** The middleware's decision: reject with a status, or accept the user. */
  datatype Decision<User> = Reject(status: int) | Accept(user: User)

  /** 401 without a header or a token, 403 when verification fails, otherwise the decoded user. */
  function Decide<User>(header: Option<string>, verify: string -> Option<User>): (d: Decision<User>)
    ensures header.None? || header.value == "" ==> d == Reject(401)
    ensures header.Some? && HeaderToken(header.value).None? ==> d == Reject(401)
    ensures d.Reject? ==> d.status in {401, 403}
    ensures d == Reject(403) <==> header.Some? && HeaderToken(header.value).Some? && verify(HeaderToken(header.value).value).None?
    ensures d.Accept? <==> header.Some? && HeaderToken(header.value).Some? && verify(HeaderToken(header.value).value).Some?
    ensures d.Accept? ==> d.user == verify(HeaderToken(header.value).value).value
  {
    if header.None? || header.value == "" then Reject(401)
    else match HeaderToken(header.value)
      case None => Reject(401)
      case Some(token) =>
        match verify(token)
        case None => Reject(403)
        case Some(user) => Accept(user)
  }

  /** The parts of the request and response the middleware touches. */
  class Exchange<User> {
    var user: Option<User>
    var status: Option<int>
    var nextCalls: nat

    constructor()
      ensures user == None && status == None && nextCalls == 0
    {
      user := None;
      status := None;
      nextCalls := 0;
    }

    /**
     * `authenticateJWT(req, res, next)`: either sends the status and does
     * not call `next`, or stores the user and calls `next` once.
     */
    method Authenticate(header: Option<string>, verify: string -> Option<User>)
      modifies this
      ensures Decide(header, verify).Reject? ==>
                status == Some(Decide(header, verify).status) && user == old(user) && nextCalls == old(nextCalls)
      ensures Decide(header, verify).Accept? ==>
                user == Some(Decide(header, verify).user) && status == old(status) && nextCalls == old(nextCalls) + 1
    {
      match Decide(header, verify) {
        case Reject(code) =>
          status := Some(code);
        case Accept(u) =>
          user := Some(u);
          nextCalls := nextCalls + 1;
      }
    }
  }
}
