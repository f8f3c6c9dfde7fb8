/**
 * The role gate that opens every protected backend handler
 * (`require_merchant`, `require_supplier`, `require_shipping_company`).
 *
 * A caller is admitted through the legacy session when the session carries a
 * user id and the expected user type; otherwise through an
 * `Authorization: Bearer <token>` header whose decoded claims name the
 * expected type. The user row must then own a profile of that role.
 * Token decoding is a lookup in a table of the tokens that decode to a
 * non-empty payload; the user table gives each user's profile per role.
 */
module AuthGate {
  import opened Common

  datatype Role = MerchantRole | SupplierRole | ShippingRole

  /** The `user_type` string of each role. */
  function RoleName(r: Role): string {
    match r
    case MerchantRole => "merchant"
    case SupplierRole => "supplier"
    case ShippingRole => "shipping"
  }

  datatype Session = Session(userId: Option<int>, userType: Option<string>)

  /** The `sub` and `type` claims of a decoded token. */
  datatype Claims = Claims(sub: Option<int>, userType: Option<string>)

  /** A user row and the ids of the profiles it owns. */
  datatype UserRow = UserRow(merchant: Option<int>, supplier: Option<int>, shipping: Option<int>)

  /** The outcome of the gate: the caller's profile, or the HTTP status of the
    * error response the handler returns. */
  datatype Gate = Granted(profile: int) | Denied(code: int)

  function ProfileOf(u: UserRow, r: Role): Option<int> {
    match r
    case MerchantRole => u.merchant
    case SupplierRole => u.supplier
    case ShippingRole => u.shipping
  }

  /** `user.merchant` (etc.) for the user with that id, if any. */
  function LookupProfile(users: map<int, UserRow>, uid: Option<int>, r: Role): Option<int> {
    if uid.Some? && uid.value in users then ProfileOf(users[uid.value], r) else None
  }

  function FromProfile(p: Option<int>): Gate {
    if p.Some? then Granted(p.value) else Denied(404)
  }

  predicate SessionAs(r: Role, s: Session) {
    s.userId.Some? && s.userType == Some(RoleName(r))
  }

  /** The token of a well-formed header: exactly two words, the first of
    * which is `bearer` in any case. */
  function BearerToken(auth: Option<string>): Option<string> {
    if auth.None? then None
    else
      var parts := SplitWords(auth.value);
      if |parts| == 2 && Lower(parts[0]) == "bearer" then Some(parts[1]) else None
  }

  /** The gate as written. A header made only of white space is truthy, so
    * the emptiness test lets it through; `auth.split()` is then empty and
    * `parts[0]` raises, which the handler's `except` turns into a 500. */
  function RequireRoleAsWritten(r: Role, s: Session, auth: Option<string>,
                                tokens: map<string, Claims>, users: map<int, UserRow>): Gate
  {
    if SessionAs(r, s) then FromProfile(LookupProfile(users, s.userId, r))
    else if auth.None? || auth.value == "" then Denied(401)
    else
      var parts := SplitWords(auth.value);
      if parts == [] then Denied(500)
      else if Lower(parts[0]) != "bearer" || |parts| != 2 then Denied(401)
      else if parts[1] !in tokens then Denied(401)
      else if tokens[parts[1]].userType != Some(RoleName(r)) then Denied(403)
      else FromProfile(LookupProfile(users, tokens[parts[1]].sub, r))
  }

  lemma BlankHeaderCrashes()
    ensures RequireRoleAsWritten(MerchantRole, Session(None, None), Some(" "), map[], map[]) == Denied(500)
  {
    assert SplitWords(" ") == [] by { SplitWordsEmptyIffBlank(" "); }
  }

  /** The gate as evidently intended: any header that is not exactly
    * `Bearer <token>` is a 401. */
  function RequireRole(r: Role, s: Session, auth: Option<string>,
                       tokens: map<string, Claims>, users: map<int, UserRow>): (g: Gate)
    ensures g.Denied? ==> g.code == 401 || g.code == 403 || g.code == 404
    ensures SessionAs(r, s) ==> g == FromProfile(LookupProfile(users, s.userId, r))
    ensures g == Denied(401) <==>
            !SessionAs(r, s) && (BearerToken(auth).None? || BearerToken(auth).value !in tokens)
    ensures g == Denied(403) <==>
            !SessionAs(r, s) && BearerToken(auth).Some? && BearerToken(auth).value in tokens &&
            tokens[BearerToken(auth).value].userType != Some(RoleName(r))
    ensures g.Granted? ==>
            (SessionAs(r, s) && LookupProfile(users, s.userId, r) == Some(g.profile)) ||
            (BearerToken(auth).Some? && BearerToken(auth).value in tokens &&
             tokens[BearerToken(auth).value].userType == Some(RoleName(r)) &&
             LookupProfile(users, tokens[BearerToken(auth).value].sub, r) == Some(g.profile))
  {
    if SessionAs(r, s) then FromProfile(LookupProfile(users, s.userId, r))
    else
      var token := BearerToken(auth);
      if token.None? || token.value !in tokens then Denied(401)
      else if tokens[token.value].userType != Some(RoleName(r)) then Denied(403)
      else FromProfile(LookupProfile(users, tokens[token.value].sub, r))
  }

  /** The two gates agree on every request except a non-empty blank header. */
  lemma AsWrittenAgreesOffBlankHeaders(r: Role, s: Session, auth: Option<string>,
                                       tokens: map<string, Claims>, users: map<int, UserRow>)
    requires auth.None? || !IsBlank(auth.value) || auth.value == ""
    ensures RequireRoleAsWritten(r, s, auth, tokens, users) == RequireRole(r, s, auth, tokens, users)
  {
    if auth.Some? && auth.value == "" {
      assert SplitWords("") == [];
    }
    if auth.Some? && auth.value != "" {
      SplitWordsEmptyIffBlank(auth.value);
    }
  }

  /** `Bearer <token>` is accepted for any token without white space. */
  lemma WellFormedHeader(token: string)
    requires token != "" && forall i :: 0 <= i < |token| ==> !IsSpace(token[i])
    ensures BearerToken(Some("Bearer " + token)) == Some(token)
  {
    var scheme := "Bearer";
    assert forall i :: 0 <= i < |scheme| ==> !IsSpace(scheme[i]);
    assert "Bearer " + token == scheme + " " + token;
    TwoWords(scheme, token);
    assert Lower(scheme) == "bearer";
  }

  /** A valid token of another role is refused with 403 unless the session
    * already admits the caller. */
  lemma WrongRoleTokenIsForbidden(r: Role, other: Role, s: Session, token: string, sub: int,
                                  users: map<int, UserRow>)
    requires r != other && !SessionAs(r, s)
    requires token != "" && forall i :: 0 <= i < |token| ==> !IsSpace(token[i])
    ensures RequireRole(r, s, Some("Bearer " + token),
                        map[token := Claims(Some(sub), Some(RoleName(other)))], users) == Denied(403)
  {
    WellFormedHeader(token);
  }

  /** A valid token of the right role admits the user's profile. */
  lemma RightRoleTokenIsGranted(r: Role, s: Session, token: string, sub: int, profile: int,
                                users: map<int, UserRow>)
    requires !SessionAs(r, s) && sub in users && ProfileOf(users[sub], r) == Some(profile)
    requires token != "" && forall i :: 0 <= i < |token| ==> !IsSpace(token[i])
    ensures RequireRole(r, s, Some("Bearer " + token),
                        map[token := Claims(Some(sub), Some(RoleName(r)))], users) == Granted(profile)
  {
    WellFormedHeader(token);
  }

  function RequireMerchant(s: Session, auth: Option<string>, tokens: map<string, Claims>,
                           users: map<int, UserRow>): (g: Gate)
    ensures g.Granted? ==> exists uid :: LookupProfile(users, uid, MerchantRole) == Some(g.profile)
    ensures g == Denied(403) ==> !SessionAs(MerchantRole, s)
  {
    RequireRole(MerchantRole, s, auth, tokens, users)
  }

  function RequireSupplier(s: Session, auth: Option<string>, tokens: map<string, Claims>,
                           users: map<int, UserRow>): (g: Gate)
    ensures g.Granted? ==> exists uid :: LookupProfile(users, uid, SupplierRole) == Some(g.profile)
    ensures g == Denied(403) ==> !SessionAs(SupplierRole, s)
  {
    RequireRole(SupplierRole, s, auth, tokens, users)
  }

  function RequireShippingCompany(s: Session, auth: Option<string>, tokens: map<string, Claims>,
                                  users: map<int, UserRow>): (g: Gate)
    ensures g.Granted? ==> exists uid :: LookupProfile(users, uid, ShippingRole) == Some(g.profile)
    ensures g == Denied(403) ==> !SessionAs(ShippingRole, s)
  {
    RequireRole(ShippingRole, s, auth, tokens, users)
  }
}
