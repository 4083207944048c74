/** The request gates (backend/middlewares/authMiddleware.js). The token is the
    second space-separated word of the Authorization header; `jwt.verify` is an
    oracle from token to decoded claims (None when it throws). */
module AuthMiddleware {
  import opened Common

  /** The decoded token claims the gates read. */
  datatype Claims = Claims(id: nat, role: string)

  /** What a gate does: call `next` (with the request's user) or reply with an error. */
  datatype Gate = Next(user: Claims) | Reject(error: HttpError)

  /** `header && header.split(' ')[1]`: the second word, when the header is present and non-empty
      and has one (an empty second word counts as missing, as '' is falsy). */
  function BearerToken(header: Option<string>): (t: Option<string>)
    ensures t.Some? ==> Truthy(header) && t.value != "" && |Split(header.value, ' ')| >= 2
                        && t.value == Split(header.value, ' ')[1]
    ensures Truthy(header) && |Split(header.value, ' ')| >= 2 && Split(header.value, ' ')[1] != "" ==> t.Some?
  {
    if !Truthy(header) then None
    else
      var words := Split(header.value, ' ');
      if |words| < 2 || words[1] == "" then None else Some(words[1])
  }

  /** The token is the second word whatever the first word is: "Bearer t", "Token t" and
      "x t" all yield t, for a non-empty space-free t. */
  lemma TokenIsSecondWord(scheme: string, token: string)
    requires ' ' !in scheme && ' ' !in token && token != ""
    ensures BearerToken(Some(scheme + " " + token)) == Some(token)
  {
    SplitFirstPiece(scheme, token, ' ');
    SplitNoSeparator(token, ' ');
  }

  /** isAuthenticated: no token is a 401 and `next` is not called; a token the oracle rejects
      is a 401; otherwise the decoded claims become the request's user and `next` runs. */
  function IsAuthenticated(header: Option<string>, verify: string -> Option<Claims>): (g: Gate)
    ensures BearerToken(header).None? ==> g == Reject(Unauthorized)
    ensures BearerToken(header).Some? && verify(BearerToken(header).value).None? ==> g == Reject(Unauthorized)
    ensures g.Next? <==> BearerToken(header).Some? && verify(BearerToken(header).value).Some?
    ensures g.Next? ==> g.user == verify(BearerToken(header).value).value
  {
    match BearerToken(header)
    case None => Reject(Unauthorized)
    case Some(token) =>
      match verify(token)
      case None => Reject(Unauthorized)
      case Some(decoded) => Next(decoded)
  }

  /** isCustomer: no user is a 401, a role other than "customer" a 403. */
  function IsCustomer(user: Option<Claims>): (g: Gate)
    ensures user.None? ==> g == Reject(Unauthorized)
    ensures user.Some? && user.value.role != "customer" ==> g == Reject(Forbidden)
    ensures g.Next? <==> user.Some? && user.value.role == "customer"
    ensures g.Next? ==> g.user == user.value
  {
    if user.None? then Reject(Unauthorized)
    else if user.value.role != "customer" then Reject(Forbidden)
    else Next(user.value)
  }

  /** isRestaurant: a role other than "restaurant" is a 403. There is no check for a missing
      user: reading `req.user.role` then throws, and Express answers the thrown error with 500. */
  function IsRestaurant(user: Option<Claims>): (g: Gate)
    ensures user.None? ==> g == Reject(ServerError)
    ensures user.Some? && user.value.role != "restaurant" ==> g == Reject(Forbidden)
    ensures g.Next? <==> user.Some? && user.value.role == "restaurant"
    ensures g.Next? ==> g.user == user.value
  {
    if user.None? then Reject(ServerError)
    else if user.value.role != "restaurant" then Reject(Forbidden)
    else Next(user.value)
  }

  /** No user passes both role gates. */
  lemma NoUserPassesBothRoles(user: Option<Claims>)
    ensures !(IsCustomer(user).Next? && IsRestaurant(user).Next?)
  {
  }

  /** A route's gate chain: isAuthenticated followed by one role gate. */
  function Guard(header: Option<string>, verify: string -> Option<Claims>, role: Claims -> Gate): (g: Gate)
    ensures IsAuthenticated(header, verify).Reject? ==> g == IsAuthenticated(header, verify)
    ensures IsAuthenticated(header, verify).Next? ==> g == role(IsAuthenticated(header, verify).user)
  {
    match IsAuthenticated(header, verify)
    case Reject(e) => Reject(e)
    case Next(u) => role(u)
  }

  /** Behind isAuthenticated the role gates never see a missing user: a customer route
      replies 401 only for a bad token and 403 only for a verified non-customer. */
  lemma CustomerRouteErrors(header: Option<string>, verify: string -> Option<Claims>)
    ensures var g := Guard(header, verify, u => IsCustomer(Some(u)));
            (g == Reject(Unauthorized) <==> IsAuthenticated(header, verify).Reject?)
            && (g == Reject(Forbidden) <==> IsAuthenticated(header, verify).Next? && IsAuthenticated(header, verify).user.role != "customer")
            && (g.Next? ==> g.user.role == "customer")
  {
  }

  /** Likewise for restaurant routes: a 500 cannot happen behind isAuthenticated. */
  lemma RestaurantRouteErrors(header: Option<string>, verify: string -> Option<Claims>)
    ensures var g := Guard(header, verify, u => IsRestaurant(Some(u)));
            g != Reject(ServerError)
            && (g == Reject(Unauthorized) <==> IsAuthenticated(header, verify).Reject?)
            && (g.Next? ==> g.user.role == "restaurant")
  {
  }
}
