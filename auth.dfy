/**
 * The route guards: `protect` admits a request that carries a bearer token
 * the token verifier accepts, and records the user it names on the request;
 * `authorize(...roles)` admits a logged-in user whose role is listed.
 *
 * Token verification and the user lookup are foreign code and come in as
 * parameters: `verify` stands for `jwt.verify` with the server's secret,
 * `findById` for `User.findById`.
 */
module Auth {
  import opened Wrappers
  import opened JsText
  import opened SeqFacts
  import opened Http

  const BearerPrefix: string := "Bearer"

  /** The error both guards' 401 paths pass on. */
  const Unauthorized: Error := ErrorResponse("Unauthorized!", 401)

  /** What the token verifier does with a token: throws, or yields a payload with a user id. */
  datatype Verified = Invalid | Decoded(id: UserId)

  /** What the user lookup does: finds a user, resolves to `null`, or rejects. */
  datatype Lookup = Found(user: User) | NotFound | LookupFailed

  /** String.prototype.startsWith */
  predicate StartsWith(s: string, p: string) {
    |p| <= |s| && s[..|p|] == p
  }

  /**
   * The value of `token` after the header check: the second field of the
   * header split on single spaces, when the header is present and starts
   * with `Bearer`; `None` (undefined) otherwise, and also when the header
   * has no second field. The field may be empty.
   */
  function HeaderToken(authorization: Option<string>): Option<string> {
    if authorization.Some? && authorization.value != [] && StartsWith(authorization.value, BearerPrefix) then
      var fields := Split(authorization.value, ' ');
      if |fields| > 1 then Some(fields[1]) else None
    else None
  }

  /**
   * A header made of `Bearer`, more text without spaces, one space, the
   * token (no spaces) and then either nothing or a space and anything.
   */
  predicate BearerShape(header: string, suffix: string, token: string, rest: string) {
    && header == BearerPrefix + suffix + " " + token + rest
    && ' ' !in suffix && ' ' !in token
    && (rest == [] || rest[0] == ' ')
  }

  // ---------------------------------------------------------------------------
  // The token a header yields

  lemma {:induction false} FirstFieldOf(a: string, x: string)
    requires ' ' !in a
    requires x == [] || x[0] == ' '
    ensures Split(a + x, ' ')[0] == a
  {
    if x == [] {
      EmptyRight(a, x);
      SplitLastField(a, ' ');
    } else {
      HeadTail(x);
      Assoc(a, [' '], x[1..]);
      SplitAfterField(a, x[1..], ' ');
    }
  }

  lemma {:induction false} BearerFields(suffix: string, token: string, rest: string)
    requires ' ' !in suffix && ' ' !in token
    requires rest == [] || rest[0] == ' '
    ensures var fields := Split(BearerPrefix + suffix + " " + token + rest, ' ');
      |fields| > 1 && fields[0] == BearerPrefix + suffix && fields[1] == token
  {
    var a := BearerPrefix + suffix;
    assert ' ' !in a by {
      assert forall i :: 0 <= i < |a| ==> a[i] == if i < |BearerPrefix| then BearerPrefix[i] else suffix[i - |BearerPrefix|];
    }
    Assoc(a + " ", token, rest);
    SplitAfterField(a, token + rest, ' ');
    FirstFieldOf(token, rest);
  }

  lemma {:induction false} BearerStartsWith(suffix: string, tail: string)
    ensures StartsWith(BearerPrefix + suffix + tail, BearerPrefix)
  {
    Assoc(BearerPrefix, suffix, tail);
    CutLeft(BearerPrefix, suffix + tail, |BearerPrefix|);
  }

  /** A header of that shape yields exactly its token; `BearerX tok` yields `tok`. */
  lemma {:induction false} HeaderTokenOf(suffix: string, token: string, rest: string)
    requires ' ' !in suffix && ' ' !in token
    requires rest == [] || rest[0] == ' '
    ensures HeaderToken(Some(BearerPrefix + suffix + " " + token + rest)) == Some(token)
  {
    BearerFields(suffix, token, rest);
    Assoc(BearerPrefix + suffix, " ", token);
    Assoc(BearerPrefix + suffix + " ", token, rest);
    Assoc(BearerPrefix, suffix, " " + token + rest);
    BearerStartsWith(suffix, " " + token + rest);
  }

  /** `Bearer`, or `Bearer` run on without a space, yields no token. */
  lemma {:induction false} HeaderTokenNoField(suffix: string)
    requires ' ' !in suffix
    ensures HeaderToken(Some(BearerPrefix + suffix)) == None
  {
    var h := BearerPrefix + suffix;
    assert ' ' !in h by {
      assert forall i :: 0 <= i < |h| ==> h[i] == if i < |BearerPrefix| then BearerPrefix[i] else suffix[i - |BearerPrefix|];
    }
    SplitLastField(h, ' ');
  }

  /** A header that does not start with `Bearer`, or no header at all, yields no token. */
  lemma {:induction false} HeaderTokenNotBearer(authorization: Option<string>)
    requires authorization.None? || !StartsWith(authorization.value, BearerPrefix)
    ensures HeaderToken(authorization) == None
  {
  }

  lemma {:induction false} JoinTwoOrMore(fields: seq<string>)
    requires |fields| > 1
    ensures Join(fields, " ") == fields[0] + " " + fields[1] + (if |fields| > 2 then " " + Join(fields[2..], " ") else "")
  {
    var tail := fields[1..];
    assert tail[0] == fields[1] && tail[1..] == fields[2..];
    if |fields| > 2 {
      Assoc(fields[0] + " ", fields[1], " " + Join(fields[2..], " "));
    } else {
      EmptyRight(fields[0] + " " + fields[1], "");
    }
  }

  /** The first field is at least the prefix: the prefix holds no space. */
  lemma {:induction false} FirstFieldLong(h: string, f: string, x: string)
    requires h == f + x && x != [] && x[0] == ' '
    requires StartsWith(h, BearerPrefix)
    ensures |f| >= |BearerPrefix| && f[..|BearerPrefix|] == BearerPrefix
  {
    assert h[|f|] == ' ';
    assert forall i :: 0 <= i < |BearerPrefix| ==> h[i] == h[..|BearerPrefix|][i] != ' ';
    CutLeft(f, x, |BearerPrefix|);
  }

  /** Conversely, every token a header yields comes from a header of that shape. */
  lemma {:induction false} HeaderTokenShape(header: string) returns (suffix: string, rest: string)
    requires HeaderToken(Some(header)).Some?
    ensures BearerShape(header, suffix, HeaderToken(Some(header)).value, rest)
  {
    var fields := Split(header, ' ');
    JoinSplit(header, ' ');
    JoinTwoOrMore(fields);
    rest := if |fields| > 2 then " " + Join(fields[2..], " ") else "";
    var f := fields[0];
    Assoc(f, " ", fields[1]);
    Assoc(f, " " + fields[1], rest);
    Assoc(f + " ", fields[1], rest);
    FirstFieldLong(header, f, " " + fields[1] + rest);
    suffix := f[|BearerPrefix|..];
    TakeDrop(f, |BearerPrefix|);
    assert ' ' !in suffix by {
      assert forall i :: 0 <= i < |suffix| ==> suffix[i] == f[|BearerPrefix| + i];
    }
  }

  // ---------------------------------------------------------------------------
  // protect

  /**
   * The guard's decision: the value `req.user` ends with and how the call
   * ends. Without a non-empty token, when the verifier throws and when the
   * lookup rejects, `next` gets the 401 error and `req.user` is untouched;
   * otherwise `req.user` becomes the lookup's answer (`null` when no user
   * has that id) and `next()` is called.
   */
  function Protect(authorization: Option<string>, verify: string -> Verified, findById: UserId -> Lookup, user: UserSlot): (r: (UserSlot, Continuation))
    ensures r.1 == Next || r.1 == NextWithError(Unauthorized)
    ensures r.1 != Next ==> r.0 == user
    ensures r.1 == Next ==> r.0 != Unset
  {
    var token := HeaderToken(authorization);
    if token.None? || token.value == [] then (user, NextWithError(Unauthorized))
    else match verify(token.value)
      case Invalid => (user, NextWithError(Unauthorized))
      case Decoded(id) =>
        match findById(id)
        case LookupFailed => (user, NextWithError(Unauthorized))
        case NotFound => (NullUser, Next)
        case Found(u) => (LoggedIn(u), Next)
  }

  /** `protect` itself: it reads the header and assigns `req.user`; nothing else of the request changes. */
  method ProtectMiddleware(req: Request, verify: string -> Verified, findById: UserId -> Lookup) returns (k: Continuation)
    modifies req
    ensures (req.user, k) == Protect(old(req.authorization), verify, findById, old(req.user))
    ensures req.query == old(req.query) && req.authorization == old(req.authorization)
  {
    var token := HeaderToken(req.authorization);
    if token.None? || token.value == [] {
      return NextWithError(Unauthorized);
    }
    match verify(token.value) {
      case Invalid =>
        return NextWithError(Unauthorized);
      case Decoded(id) =>
        match findById(id) {
          case LookupFailed =>
            return NextWithError(Unauthorized);
          case NotFound =>
            req.user := NullUser;
          case Found(u) =>
            req.user := LoggedIn(u);
        }
    }
    k := Next;
  }

  /** The request is admitted exactly when its token is non-empty, verifies, and the lookup answers. */
  lemma {:induction false} ProtectAdmitsIff(authorization: Option<string>, verify: string -> Verified, findById: UserId -> Lookup, user: UserSlot)
    ensures Protect(authorization, verify, findById, user).1 == Next
      <==> exists token :: HeaderToken(authorization) == Some(token) && token != []
             && verify(token).Decoded? && !findById(verify(token).id).LookupFailed?
  {
    var token := HeaderToken(authorization);
    if token.Some? && token.value != [] && verify(token.value).Decoded? && !findById(verify(token.value).id).LookupFailed? {
      assert HeaderToken(authorization) == Some(token.value);
    }
  }

  /** A header of bearer shape with a non-empty token the verifier and the lookup accept logs that user in. */
  lemma {:induction false} ProtectLogsIn(suffix: string, token: string, rest: string, verify: string -> Verified, findById: UserId -> Lookup, user: UserSlot)
    requires ' ' !in suffix && ' ' !in token && token != []
    requires rest == [] || rest[0] == ' '
    requires verify(token).Decoded? && findById(verify(token).id).Found?
    ensures Protect(Some(BearerPrefix + suffix + " " + token + rest), verify, findById, user)
         == (LoggedIn(findById(verify(token).id).user), Next)
  {
    HeaderTokenOf(suffix, token, rest);
  }

  /** A bearer header whose verified id belongs to no user admits the request with `req.user` set to `null`. */
  lemma {:induction false} ProtectNullUser(suffix: string, token: string, rest: string, verify: string -> Verified, findById: UserId -> Lookup, user: UserSlot)
    requires ' ' !in suffix && ' ' !in token && token != []
    requires rest == [] || rest[0] == ' '
    requires verify(token).Decoded? && findById(verify(token).id).NotFound?
    ensures Protect(Some(BearerPrefix + suffix + " " + token + rest), verify, findById, user) == (NullUser, Next)
  {
    HeaderTokenOf(suffix, token, rest);
  }

  /**
   * On every admitted request `req.user` is the lookup's answer for the
   * verified id of the header's token: that user, or `null` when there is none.
   */
  lemma {:induction false} ProtectAdmitsAs(authorization: Option<string>, verify: string -> Verified, findById: UserId -> Lookup, user: UserSlot) returns (token: string)
    requires Protect(authorization, verify, findById, user).1 == Next
    ensures HeaderToken(authorization) == Some(token) && token != [] && verify(token).Decoded?
    ensures var found := findById(verify(token).id);
      && (found.Found? || found.NotFound?)
      && (found.Found? ==> Protect(authorization, verify, findById, user).0 == LoggedIn(found.user))
      && (found.NotFound? ==> Protect(authorization, verify, findById, user).0 == NullUser)
  {
    token := HeaderToken(authorization).value;
  }

  /**
   * The missing header, the header without a second field and the header
   * whose second field is empty (`Bearer  x`) are all refused before the
   * verifier is asked, whatever it would say.
   */
  lemma {:induction false} ProtectRefusesWithoutToken(suffix: string, x: string, verify: string -> Verified, findById: UserId -> Lookup, user: UserSlot)
    requires ' ' !in suffix
    ensures Protect(None, verify, findById, user) == (user, NextWithError(Unauthorized))
    ensures Protect(Some(BearerPrefix + suffix), verify, findById, user) == (user, NextWithError(Unauthorized))
    ensures Protect(Some(BearerPrefix + suffix + "  " + x), verify, findById, user) == (user, NextWithError(Unauthorized))
  {
    HeaderTokenNoField(suffix);
    HeaderTokenOf(suffix, "", " " + x);
    assert BearerPrefix + suffix + " " + "" + (" " + x) == BearerPrefix + suffix + "  " + x;
  }

  /** A header that does not start with `Bearer` is refused, whatever follows. */
  lemma {:induction false} ProtectRefusesOtherSchemes(authorization: string, verify: string -> Verified, findById: UserId -> Lookup, user: UserSlot)
    requires !StartsWith(authorization, BearerPrefix)
    ensures Protect(Some(authorization), verify, findById, user) == (user, NextWithError(Unauthorized))
  {
    HeaderTokenNotBearer(Some(authorization));
  }

  // ---------------------------------------------------------------------------
  // authorize

  function RoleUnauthorized(role: string): Error {
    ErrorResponse("User role " + role + " is unauthorized !", 403)
  }

  /**
   * `authorize(...roles)` applied to `req.user`. Reading `.role` of an
   * unset or `null` user throws a TypeError, which Express passes to the
   * error handler as `next(err)`.
   */
  function Authorize(roles: seq<string>, user: UserSlot): Continuation {
    match user
    case Unset => NextWithError(TypeError("Cannot read properties of undefined (reading 'role')"))
    case NullUser => NextWithError(TypeError("Cannot read properties of null (reading 'role')"))
    case LoggedIn(u) => if u.role in roles then Next else NextWithError(RoleUnauthorized(u.role))
  }

  /** A logged-in user passes exactly when the role is listed, and is otherwise refused with 403 naming the role. */
  lemma {:induction false} AuthorizeIff(roles: seq<string>, u: User)
    ensures Authorize(roles, LoggedIn(u)) == Next <==> exists i :: 0 <= i < |roles| && roles[i] == u.role
    ensures Authorize(roles, LoggedIn(u)) != Next ==> Authorize(roles, LoggedIn(u)).error.statusCode == 403
    ensures u.role !in roles ==> Authorize(roles, LoggedIn(u)) == NextWithError(RoleUnauthorized(u.role))
  {
    if u.role in roles {
      var i :| 0 <= i < |roles| && roles[i] == u.role;
    }
  }

  /** With no roles listed, nobody passes. */
  lemma {:induction false} AuthorizeNoRoles(user: UserSlot)
    ensures Authorize([], user) != Next
  {
  }

  /** Without a user there is no pass either. */
  lemma {:induction false} AuthorizeNeedsUser(roles: seq<string>, user: UserSlot)
    requires !user.LoggedIn?
    ensures Authorize(roles, user).NextWithError? && Authorize(roles, user).error.TypeError?
  {
  }

  /** Only the set of roles matters: not their order, not repetitions. */
  lemma {:induction false} AuthorizeRoleSet(roles: seq<string>, others: seq<string>, user: UserSlot)
    requires forall r :: r in roles <==> r in others
    ensures Authorize(roles, user) == Authorize(others, user)
  {
  }

  /** After `protect` admits a request, `authorize` never meets an unset user. */
  lemma {:induction false} ProtectThenAuthorize(authorization: Option<string>, verify: string -> Verified, findById: UserId -> Lookup, user: UserSlot, roles: seq<string>)
    requires Protect(authorization, verify, findById, user).1 == Next
    ensures var u := Protect(authorization, verify, findById, user).0;
      Authorize(roles, u) == Next <==> u.LoggedIn? && u.user.role in roles
  {
  }
}
