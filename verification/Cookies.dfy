/** The two cookies the server sets, as Set-Cookie headers, and what a browser makes of them. */
module Cookies {
  import opened Wrappers
  import opened SessionTypes
  import opened Protocol
  import opened Folding

  datatype SameSite = Lax | Strict

  /** A Max-Age of zero is no Max-Age attribute; a negative one asks for removal. No Domain is ever set. */
  datatype SetCookie = SetCookie(
    name: string,
    value: string,
    path: string,
    httpOnly: bool,
    secure: bool,
    sameSite: SameSite,
    maxAge: int)

  const HOST_PREFIX := "__Host-"

  function CookieName(base: string, insecure: bool): string
  {
    if insecure then base else HOST_PREFIX + base
  }

  function LoginStateCookieName(insecure: bool): string { CookieName("td-login-state", insecure) }

  function SessionCookieName(insecure: bool): string { CookieName("td-session", insecure) }

  lemma CookieNames(insecure: bool)
    ensures LoginStateCookieName(insecure) != SessionCookieName(insecure)
    ensures HOST_PREFIX <= LoginStateCookieName(insecure) <==> !insecure
    ensures HOST_PREFIX <= SessionCookieName(insecure) <==> !insecure
  {
    assert LoginStateCookieName(true)[0] == 't' && SessionCookieName(true)[0] == 't' && HOST_PREFIX[0] == '_';
    assert |LoginStateCookieName(insecure)| == |SessionCookieName(insecure)| + 4;
  }

  /** The first cookie of that name in the request. */
  function Find(cookies: seq<(string, string)>, name: string): Option<string>
  {
    if cookies == [] then None
    else if cookies[0].0 == name then Some(cookies[0].1)
    else Find(cookies[1..], name)
  }

  /** What a browser does with its cookie of that name: the last header about it decides. */
  function Effect(headers: seq<SetCookie>, name: string): CookieOp
  {
    if headers == [] then Keep
    else
      var last := headers[|headers| - 1];
      if last.name != name then Effect(headers[..|headers| - 1], name)
      else if last.maxAge < 0 then Clear
      else SetTo(last.value)
  }

  lemma EffectOfAppend(headers: seq<SetCookie>, c: SetCookie, name: string)
    ensures Effect(headers + [c], name) ==
            if c.name != name then Effect(headers, name) else if c.maxAge < 0 then Clear else SetTo(c.value)
  {
    assert (headers + [c])[..|headers|] == headers;
  }

  /** Browsers refuse a `__Host-` cookie that is not Secure with Path=/. */
  predicate HostRule(c: SetCookie)
  {
    HOST_PREFIX <= c.name ==> c.secure && c.path == "/"
  }

  predicate Presentable(c: SetCookie, insecure: bool)
  {
    HostRule(c) && c.httpOnly && (c.secure || insecure)
  }

  /** Seconds of a duration, truncated toward zero. */
  function WholeSeconds(d: int): int
  {
    if d < 0 then -Unix(-d) else Unix(d)
  }

  /** The response under construction. `view` is what a browser will make of it. */
  class ResponseWriter {
    const insecure: bool
    var cookies: seq<SetCookie>
    var status: int
    var body: Body
    var location: string
    ghost var view: Response

    constructor (insecure: bool)
      ensures this.insecure == insecure && Valid() && view == Response(200, Keep, Keep, Plain)
    {
      this.insecure, cookies, status, body, location := insecure, [], 200, Plain, "";
      view := Response(200, Keep, Keep, Plain);
    }

    /** Browsers accept every cookie written, scripts cannot read it, and `view` tells the truth. */
    ghost predicate Valid()
      reads this
    {
      forall o {:trigger Unfold(o)} :: Unfold(o) ==>
        && (forall c <- cookies :: Presentable(c, insecure))
        && view == Response(status, Effect(cookies, LoginStateCookieName(insecure)),
                            Effect(cookies, SessionCookieName(insecure)), body)
    }

    method Add(c: SetCookie)
      requires Valid() && Presentable(c, insecure)
      requires c.name == LoginStateCookieName(insecure) || c.name == SessionCookieName(insecure)
      modifies this
      ensures Valid() && status == old(status) && body == old(body) && location == old(location)
      ensures var op := if c.maxAge < 0 then Clear else SetTo(c.value);
              view == if c.name == LoginStateCookieName(insecure) then old(view).(loginCookie := op)
                else old(view).(sessionCookie := op)
    {
      assert Unfold(0);
      CookieNames(insecure);
      EffectOfAppend(cookies, c, LoginStateCookieName(insecure));
      EffectOfAppend(cookies, c, SessionCookieName(insecure));
      cookies := cookies + [c];
      var op := if c.maxAge < 0 then Clear else SetTo(c.value);
      view := if c.name == LoginStateCookieName(insecure) then view.(loginCookie := op) else view.(sessionCookie := op);
    }

    /** Lax: the browser must send it on the navigation back from the provider. */
    method SetLoginStateCookie(state: string, ttl: int)
      requires Valid()
      modifies this
      ensures Valid() && view == old(view).(loginCookie := if WholeSeconds(ttl) < 0 then Clear else SetTo(state))
    {
      CookieNames(insecure);
      Add(SetCookie(LoginStateCookieName(insecure), state, "/", true, !insecure, Lax, WholeSeconds(ttl)));
    }

    method ClearLoginStateCookie()
      requires Valid()
      modifies this
      ensures Valid() && view == old(view).(loginCookie := Clear)
    {
      CookieNames(insecure);
      Add(SetCookie(LoginStateCookieName(insecure), "", "/", true, !insecure, Lax, -1));
    }

    method SetSessionCookie(id: string, ttl: int)
      requires Valid()
      modifies this
      ensures Valid() && view == old(view).(sessionCookie := if WholeSeconds(ttl) < 0 then Clear else SetTo(id))
    {
      CookieNames(insecure);
      Add(SetCookie(SessionCookieName(insecure), id, "/", true, !insecure, Strict, WholeSeconds(ttl)));
    }

    method ClearSessionCookie()
      requires Valid()
      modifies this
      ensures Valid() && view == old(view).(sessionCookie := Clear)
    {
      CookieNames(insecure);
      Add(SetCookie(SessionCookieName(insecure), "", "/", true, !insecure, Strict, -1));
    }

    method Finish(status: int, body: Body)
      requires Valid()
      modifies this
      ensures Valid() && view == old(view).(status := status, body := body) && location == old(location)
    {
      assert Unfold(0);
      this.status, this.body := status, body;
      view := view.(status := status, body := body);
    }

    method Redirect(location: string, body: Body)
      requires Valid()
      modifies this
      ensures Valid() && view == old(view).(status := 302, body := body) && this.location == location
    {
      Finish(302, body);
      this.location := location;
      assert Unfold(0);
    }
  }
}
