/**
 * The FastAPI dependencies every service uses to authenticate a caller
 * (shared/common/dependencies.py): the bearer-header parser, the
 * current-user dependency and the role gate, plus the "elevated role"
 * ownership rule the booking and payment handlers repeat inline.
 */
module Dependencies {
  import opened Wrappers

  /**
   * The decoded claims of a verified token. `sub` is already the integer the
   * handlers obtain with `int(current_user.get("sub"))`; `token` is the entry
   * the dependencies insert into the payload dictionary (None until then).
   */
  datatype Payload = Payload(sub: int, username: string, roles: seq<string>, token: Option<string>)

  /** admin, manager or receptionist: the roles that may act on anyone's booking or payment. */
  predicate IsElevated(roles: seq<string>)
  {
    "admin" in roles || "manager" in roles || "receptionist" in roles
  }

  /** The ownership rule: an elevated caller, or the customer whose id equals the caller's subject. */
  predicate MayActOn(user: Payload, customerId: int)
  {
    IsElevated(user.roles) || customerId == user.sub
  }

  /** Python's `s.split(" ")`: cut at every single space, keeping empty pieces. */
  function SplitOnSpace(s: string): (parts: seq<string>)
    ensures |parts| >= 1
  {
    if s == [] then [""]
    else if s[0] == ' ' then [""] + SplitOnSpace(s[1..])
    else
      var rest := SplitOnSpace(s[1..]);
      [[s[0]] + rest[0]] + rest[1..]
  }

  /** The longest prefix of `s` that holds no space. */
  function UpToSpace(s: string): (r: string)
    ensures r <= s
    ensures ' ' !in r
    ensures |r| < |s| ==> s[|r|] == ' '
  {
    if s == [] || s[0] == ' ' then "" else [s[0]] + UpToSpace(s[1..])
  }

  /** The first piece of a split is the text before the first space; the rest is the split of what follows it. */
  lemma {:induction false} SplitFirst(s: string)
    ensures SplitOnSpace(s)[0] == UpToSpace(s)
    ensures |UpToSpace(s)| == |s| ==> |SplitOnSpace(s)| == 1
    ensures |UpToSpace(s)| < |s| ==>
      SplitOnSpace(s)[1..] == SplitOnSpace(s[|UpToSpace(s)| + 1..])
  {
    if s != [] && s[0] != ' ' {
      SplitFirst(s[1..]);
      if |UpToSpace(s)| < |s| {
        assert s[1..][|UpToSpace(s[1..])| + 1..] == s[|UpToSpace(s)| + 1..];
      }
    }
  }

  /** A header that starts with "Bearer " splits into "Bearer" and the text up to the next space. */
  lemma BearerSplit(h: string)
    requires "Bearer " <= h
    ensures |SplitOnSpace(h)| >= 2
    ensures SplitOnSpace(h)[0] == "Bearer"
    ensures SplitOnSpace(h)[1] == UpToSpace(h[7..])
  {
    SplitFirst(h);
    assert h[..6] == "Bearer";
    assert UpToSpace(h) == "Bearer" by {
      assert UpToSpace(h[6..]) == "";
      assert h == h[..6] + h[6..];
      UpToSpacePrefix(h[..6], h[6..]);
    }
    SplitFirst(h[7..]);
  }

  lemma {:induction false} UpToSpacePrefix(a: string, b: string)
    requires ' ' !in a
    ensures UpToSpace(a + b) == a + UpToSpace(b)
  {
    if a != [] {
      assert a[0] in a;
      assert (a + b)[1..] == a[1..] + b;
      UpToSpacePrefix(a[1..], b);
      calc {
        UpToSpace(a + b);
        [a[0]] + UpToSpace(a[1..] + b);
        [a[0]] + (a[1..] + UpToSpace(b));
        { assert a == [a[0]] + a[1..]; }
        a + UpToSpace(b);
      }
    } else {
      assert a + b == b;
    }
  }

  /**
   * get_token: the bearer token of the Authorization header. A missing or
   * empty header and a header without the exact, case-sensitive "Bearer "
   * prefix are both 401; otherwise the token is element 1 of `split(" ")`,
   * i.e. the text after "Bearer " up to the next space.
   */
  function GetToken(authorization: Option<string>): (r: Result<string>)
    ensures !TruthyString(authorization) ==> r == Fail(401, "Authorization header missing")
    ensures TruthyString(authorization) && !("Bearer " <= authorization.value) ==>
      r == Fail(401, "Invalid authorization header format")
    ensures r.Ok? <==> authorization.Some? && "Bearer " <= authorization.value
    ensures r.Ok? ==> ' ' !in r.value && r.value <= authorization.value[7..]
    ensures r.Ok? && 7 + |r.value| < |authorization.value| ==> authorization.value[7 + |r.value|] == ' '
  {
    if !TruthyString(authorization) then Fail(401, "Authorization header missing")
    else if !("Bearer " <= authorization.value) then Fail(401, "Invalid authorization header format")
    else
      BearerSplit(authorization.value);
      Ok(SplitOnSpace(authorization.value)[1])
  }

  /**
   * get_current_user: `verified` is what verify_token returned for `token`.
   * None is 401; otherwise the payload comes back with "token" set to the raw token.
   */
  function GetCurrentUser(token: string, verified: Option<Payload>): (r: Result<Payload>)
    ensures r.Err? <==> verified.None?
    ensures r.Err? ==> r.error.status == 401
    ensures r.Ok? ==>
      && r.value.token == Some(token)
      && r.value.sub == verified.value.sub && r.value.username == verified.value.username
      && r.value.roles == verified.value.roles
  {
    match verified
    case None => Fail(401, "Invalid authentication credentials")
    case Some(p) => Ok(p.(token := Some(token)))
  }

  /**
   * require_role(required): 401 for a token that does not verify, then 403
   * unless `required` is one of the payload's roles; otherwise the payload
   * with "token" set.
   */
  function RequireRole(required: string, token: string, verified: Option<Payload>): (r: Result<Payload>)
    ensures verified.None? ==> r.Err? && r.error.status == 401
    ensures verified.Some? && required !in verified.value.roles ==> r.Err? && r.error.status == 403
    ensures r.Ok? <==> verified.Some? && required in verified.value.roles
    ensures r.Ok? ==>
      && r.value.token == Some(token) && r.value.roles == verified.value.roles
      && r.value.sub == verified.value.sub
  {
    match verified
    case None => Fail(401, "Invalid authentication credentials")
    case Some(p) =>
      if required !in p.roles then Fail(403, "Required role: " + required)
      else Ok(p.(token := Some(token)))
  }

  /** "Bearer a b" gives "a"; "Bearer " gives the empty token. */
  lemma GetTokenExamples()
    ensures GetToken(Some("Bearer a b")) == Ok("a")
    ensures GetToken(Some("Bearer ")) == Ok("")
    ensures GetToken(Some("bearer a")).Err?
    ensures GetToken(Some("")) == Fail(401, "Authorization header missing")
  {
    BearerSplit("Bearer a b");
    assert "Bearer a b"[7..] == "a b";
    assert UpToSpace("a b") == "a" by {
      assert UpToSpace("a b"[1..]) == "";
    }
    BearerSplit("Bearer ");
    assert "Bearer "[7..] == "";
    assert !("Bearer " <= "bearer a") by {
      assert "bearer a"[0] != "Bearer "[0];
    }
  }
}
