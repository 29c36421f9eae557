/**
 * Request authentication for the admin endpoints (backend/authz.py:25-50):
 * a bearer token is verified, admin rights come from a custom claim or a
 * `roles` document, and `require_admin` answers 401 or 403 before the
 * wrapped handler runs. Token verification and the `roles` lookup are
 * parameters: they are calls into Firebase.
 */
module Authz {
  import opened Common
  import opened Json

  /** The `roles/<uid>` lookup: no document, the document's fields, or a failing call. */
  datatype RoleLookup = RoleMissing | RoleFound(fields: Object) | RoleFails

  /** The Firebase calls: `verify_id_token` (`None`: it raised) and the roles read. */
  datatype Identity = Identity(verify: string -> Option<Object>, roles: Value -> RoleLookup)

  /** The user record: exactly uid, email and admin. */
  datatype User = User(uid: Value, email: Value, admin: bool)

  const BearerPrefix := "Bearer "

  /** `s.split(" ", 1)[1]`: the text after the first space (`None`: no space, an `IndexError`). */
  function AfterFirstSpace(s: string): (r: Option<string>)
    ensures r.Some? ==> |r.value| < |s|
  {
    if s == [] then None
    else if s[0] == ' ' then Some(s[1..])
    else AfterFirstSpace(s[1..])
  }

  /** The first space of `word + " " + rest`, when `word` has none, is the one after `word`. */
  lemma {:induction false} AfterWordAndSpace(word: string, rest: string)
    requires forall i :: 0 <= i < |word| ==> word[i] != ' '
    ensures AfterFirstSpace(word + " " + rest) == Some(rest)
  {
    if word != [] {
      assert (word + " " + rest)[1..] == word[1..] + " " + rest;
      AfterWordAndSpace(word[1..], rest);
    } else {
      assert word + " " + rest == [' '] + rest;
    }
  }

  /** With the `Bearer ` prefix the first space is the prefix's own, so the token is the rest of the header. */
  lemma TokenAfterPrefix(hdr: string)
    requires StartsWith(hdr, BearerPrefix)
    ensures AfterFirstSpace(hdr) == Some(hdr[7..])
  {
    assert hdr == "Bearer" + " " + hdr[7..];
    AfterWordAndSpace("Bearer", hdr[7..]);
  }

  /** The admin flag: a truthy `admin` claim, else the roles document's `admin` field, else false. */
  function AdminOf(decoded: Object, uid: Value, id: Identity): Option<bool>
  {
    if Truthy(Get(decoded, "admin", VNull)) then Some(true)
    else match id.roles(uid)
      case RoleMissing => Some(false)
      case RoleFound(fields) => Some(Truthy(Get(fields, "admin", VNull)))
      case RoleFails => None
  }

  /**
   * `get_user_from_request()` for the Authorization header `header` (absent is
   * `""`). Any failure inside the `try` (verification, a missing `uid`, the
   * roles read) is caught and gives no user.
   */
  function UserFromRequest(header: string, id: Identity): (u: Option<User>)
    ensures !StartsWith(header, BearerPrefix) ==> u.None?
    ensures u.Some? ==> id.verify(header[7..]).Some? && "uid" in id.verify(header[7..]).value
    ensures u.Some? ==> u.value.uid == id.verify(header[7..]).value["uid"]
    ensures u.Some? ==> u.value.email == Get(id.verify(header[7..]).value, "email", VNull)
  {
    if !StartsWith(header, BearerPrefix) then None
    else
      var token := AfterFirstSpace(header);
      TokenAfterPrefix(header);
      match id.verify(token.value)
      case None => None
      case Some(decoded) =>
        if "uid" !in decoded then None
        else
          var uid := decoded["uid"];
          match AdminOf(decoded, uid, id)
          case None => None
          case Some(admin) => Some(User(uid, Get(decoded, "email", VNull), admin))
  }

  /** A true `admin` claim makes the user an admin whatever the roles lookup would do, even fail. */
  lemma ClaimSkipsRolesLookup(header: string, id: Identity, roles: Value -> RoleLookup)
    requires StartsWith(header, BearerPrefix)
    requires id.verify(header[7..]).Some? && "uid" in id.verify(header[7..]).value
    requires Truthy(Get(id.verify(header[7..]).value, "admin", VNull))
    ensures UserFromRequest(header, id) == UserFromRequest(header, id.(roles := roles))
    ensures UserFromRequest(header, id).Some? && UserFromRequest(header, id).value.admin
  {
    TokenAfterPrefix(header);
  }

  /** Without the claim the flag is the roles document's, false when there is none. */
  lemma RolesDecideWithoutClaim(header: string, id: Identity)
    requires StartsWith(header, BearerPrefix)
    requires id.verify(header[7..]).Some? && "uid" in id.verify(header[7..]).value
    requires !Truthy(Get(id.verify(header[7..]).value, "admin", VNull))
    ensures var uid := id.verify(header[7..]).value["uid"];
      && (id.roles(uid).RoleMissing? ==> UserFromRequest(header, id).Some? && !UserFromRequest(header, id).value.admin)
      && (id.roles(uid).RoleFound? ==>
            UserFromRequest(header, id).Some?
            && UserFromRequest(header, id).value.admin == Truthy(Get(id.roles(uid).fields, "admin", VNull)))
      && (id.roles(uid).RoleFails? ==> UserFromRequest(header, id).None?)
  {
    TokenAfterPrefix(header);
  }

  /** A verification failure gives no user. */
  lemma VerifyFailureGivesNoUser(header: string, id: Identity)
    requires StartsWith(header, BearerPrefix) && id.verify(header[7..]).None?
    ensures UserFromRequest(header, id).None?
  {
    TokenAfterPrefix(header);
  }

  const Unauthenticated := Response(401, map["error" := VStr("unauthenticated")])
  const Forbidden := Response(403, map["error" := VStr("forbidden")])

  /** The check `require_admin` makes before the handler: a rejection, or `None` to run it. */
  function Gate(u: Option<User>): (r: Option<Response>)
    ensures r == Some(Unauthenticated) <==> u.None?
    ensures r == Some(Forbidden) <==> u.Some? && !u.value.admin
    ensures r.None? <==> u.Some? && u.value.admin
  {
    match u
    case None => Some(Unauthenticated)
    case Some(user) => if user.admin then None else Some(Forbidden)
  }

  /** The wrapped handler: its own response for an admin, the rejection for everyone else. */
  function RequireAdmin<R>(u: Option<User>, reject: Response -> R, handler: R): (r: R)
    ensures u.Some? && u.value.admin ==> r == handler
    ensures u.None? ==> r == reject(Unauthenticated)
    ensures u.Some? && !u.value.admin ==> r == reject(Forbidden)
  {
    match Gate(u)
    case Some(rejection) => reject(rejection)
    case None => handler
  }

  /** For a non-admin request the result does not depend on the handler at all. */
  lemma RejectionIgnoresHandler<R>(u: Option<User>, reject: Response -> R, h1: R, h2: R)
    requires !(u.Some? && u.value.admin)
    ensures RequireAdmin(u, reject, h1) == RequireAdmin(u, reject, h2)
  {
  }
}
