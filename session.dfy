/**
 * Transport sessions and their authorization: the bearer-token header
 * injector, the static-token authorizer (with its masked rendering), the
 * default session and its header setup, and the application-context
 * registry that hands out one session per session class.
 */
module Session {
  import opened Wrappers
  import opened Protocols

  const AuthorizationHeader: string := "Authorization"

  /** Attaches `Authorization: Bearer <token>` to every request it is applied to. */
  datatype BearerTokenAuth = BearerTokenAuth(token: string)
  {
    /** Sets the Authorization header of `r` in place and hands back the same request. */
    method Apply(r: PreparedRequest) returns (out: PreparedRequest)
      modifies r`headers
      ensures out == r
      ensures r.headers == old(r.headers)[AuthorizationHeader := "Bearer " + token]
    {
      r.headers := r.headers[AuthorizationHeader := "Bearer " + token];
      out := r;
    }
  }

  /** Python's `c * n` for a one-character string `c`: empty when `n` is not positive. */
  function Repeat(c: char, n: int): (r: string)
    decreases if n <= 0 then 0 else n
    ensures |r| == if n <= 0 then 0 else n
    ensures forall i :: 0 <= i < |r| ==> r[i] == c
  {
    if n <= 0 then [] else [c] + Repeat(c, n - 1)
  }

  /** Python's `s[-n:]` for a positive `n`: the last `n` characters, or all of `s` when it is shorter. */
  function TailSlice(s: string, n: nat): (r: string)
    requires n > 0
    ensures |r| == if |s| < n then |s| else n
    ensures r == s[|s| - |r|..]
  {
    if |s| < n then s else s[|s| - n..]
  }

  /** The masked rendering of a token: one '*' per character but the last four. */
  function Obfuscate(token: string): (r: string)
    ensures |r| == |token|
    ensures forall i :: 0 <= i < |token| - 4 ==> r[i] == '*'
    ensures forall i :: 0 <= i < |token| && i >= |token| - 4 ==> r[i] == token[i]
  {
    Repeat('*', |token| - 4) + TailSlice(token, 4)
  }

  /** What the masked rendering keeps of a token: its last four characters (all of it when shorter). */
  function VisibleSuffix(token: string): string
  {
    if |token| < 4 then token else token[|token| - 4..]
  }

  /** Two tokens render alike exactly when they have the same length and the same last four characters. */
  lemma {:induction false} ObfuscateEqual(t1: string, t2: string)
    ensures Obfuscate(t1) == Obfuscate(t2) <==> |t1| == |t2| && VisibleSuffix(t1) == VisibleSuffix(t2)
  {
    var o1, o2 := Obfuscate(t1), Obfuscate(t2);
    if o1 == o2 {
      assert |t1| == |t2|;
      var n := |t1|;
      var lo := if n < 4 then 0 else n - 4;
      forall i | 0 <= i < n - lo
        ensures VisibleSuffix(t1)[i] == VisibleSuffix(t2)[i]
      {
        assert o1[lo + i] == t1[lo + i] && o2[lo + i] == t2[lo + i];
      }
    }
    if |t1| == |t2| && VisibleSuffix(t1) == VisibleSuffix(t2) {
      var n := |t1|;
      var lo := if n < 4 then 0 else n - 4;
      forall i | 0 <= i < n
        ensures o1[i] == o2[i]
      {
        if i >= lo {
          assert VisibleSuffix(t1)[i - lo] == t1[i] && VisibleSuffix(t2)[i - lo] == t2[i];
        }
      }
    }
  }

  /** The masked rendering hides nothing of a token of four characters or fewer. */
  lemma ShortTokenUnmasked(token: string)
    requires |token| <= 4
    ensures Obfuscate(token) == token
  {
  }

  const AuthorizerClassName: string := "StaticTokenSessionAuthorizer"

  /** Authorizes sessions with one fixed bearer token. */
  datatype StaticTokenSessionAuthorizer = StaticTokenSessionAuthorizer(token: string)
  {
    /** The authorizer's printable form: its class name and the masked token in parentheses. */
    function ToString(): (s: string)
      ensures |s| == |AuthorizerClassName| + |token| + 2
      ensures s[..|AuthorizerClassName| + 1] == AuthorizerClassName + "(" && s[|s| - 1] == ')'
      ensures s[|s| - 1 - |VisibleSuffix(token)|..|s| - 1] == VisibleSuffix(token)
      ensures forall i :: |AuthorizerClassName| + 1 <= i < |s| - 1 - |VisibleSuffix(token)| ==> s[i] == '*'
    {
      AuthorizerClassName + "(" + Obfuscate(token) + ")"
    }

    /** Installs a bearer-token auth carrying this token on `session` and hands back the same session. */
    method Authorize(session: DefaultHttpSession) returns (s: DefaultHttpSession)
      modifies session`auth
      ensures s == session
      ensures session.auth == Some(BearerTokenAuth(token))
    {
      session.auth := Some(BearerTokenAuth(token));
      s := session;
    }
  }

  /** Two authorizers print alike exactly when their tokens have the same length and last four characters. */
  lemma {:induction false} ToStringReveals(a1: StaticTokenSessionAuthorizer, a2: StaticTokenSessionAuthorizer)
    ensures a1.ToString() == a2.ToString() <==>
            |a1.token| == |a2.token| && VisibleSuffix(a1.token) == VisibleSuffix(a2.token)
  {
    var p := AuthorizerClassName + "(";
    var o1, o2 := Obfuscate(a1.token), Obfuscate(a2.token);
    if a1.ToString() == a2.ToString() {
      assert a1.ToString() == p + o1 + ")" && a2.ToString() == p + o2 + ")";
      Unwrapped(p, o1, o2);
    }
    ObfuscateEqual(a1.token, a2.token);
  }

  /** What sits between a common prefix and a closing parenthesis is determined by the whole. */
  lemma Unwrapped(p: string, x: string, y: string)
    requires p + x + ")" == p + y + ")"
    ensures x == y
  {
    assert x == (p + x + ")")[|p|..|p| + |x|];
    assert y == (p + y + ")")[|p|..|p| + |y|];
  }

  /** The printable form of the authorizer built from "test_token". */
  lemma ToStringExample()
    ensures StaticTokenSessionAuthorizer("test_token").ToString() == "StaticTokenSessionAuthorizer(******oken)"
  {
    var o := Obfuscate("test_token");
    assert Repeat('*', 6) == "******";
    assert o == "******oken";
  }

  /** The headers the transport library's session starts with (its version number is left out). */
  const TransportDefaultHeaders: Headers := map[
    "User-Agent" := "python-requests",
    "Accept-Encoding" := "gzip, deflate",
    "Accept" := "*/*",
    "Connection" := "keep-alive"]

  /** The headers every gateway session sets over the transport's own. */
  const GatewayDefaultHeaders: Headers := map[
    "Content-Type" := "application/json",
    "Accept" := "application/json",
    "User-Agent" := "HTTP Gateway/1.0"]

  /** The headers of a freshly built session: the transport's, updated with the gateway's. */
  function InitialHeaders(): (h: Headers)
    ensures h.Keys == TransportDefaultHeaders.Keys + GatewayDefaultHeaders.Keys
    ensures forall k :: k in GatewayDefaultHeaders ==> h[k] == GatewayDefaultHeaders[k]
    ensures forall k :: k in TransportDefaultHeaders && k !in GatewayDefaultHeaders ==> h[k] == TransportDefaultHeaders[k]
    ensures h["Content-Type"] == "application/json" && h["Accept"] == "application/json"
    ensures h["User-Agent"] == "HTTP Gateway/1.0" && h["Connection"] == "keep-alive"
  {
    TransportDefaultHeaders + GatewayDefaultHeaders
  }

  /** The session a gateway sends its requests through. */
  class DefaultHttpSession {
    /** The name of the session class this object was built from. */
    const cls: string
    var headers: Headers
    var auth: Option<BearerTokenAuth>

    constructor(cls: string)
      ensures this.cls == cls
      ensures headers == InitialHeaders() && auth == None
    {
      this.cls := cls;
      headers := TransportDefaultHeaders;
      auth := None;
      headers := headers + GatewayDefaultHeaders;
    }
  }

  /** The auth a session built under `authorizer` carries. */
  function AuthFor(authorizer: Option<StaticTokenSessionAuthorizer>): (auth: Option<BearerTokenAuth>)
    ensures auth.Some? <==> authorizer.Some?
    ensures auth.Some? ==> auth.value.token == authorizer.value.token
  {
    match authorizer
    case None => None
    case Some(a) => Some(BearerTokenAuth(a.token))
  }

  /** Builds a new session of class `cls` and, when an authorizer is given, authorizes it. */
  method Initialize(cls: string, authorizer: Option<StaticTokenSessionAuthorizer>) returns (s: DefaultHttpSession)
    ensures fresh(s) && s.cls == cls
    ensures s.headers == InitialHeaders()
    ensures s.auth == AuthFor(authorizer)
  {
    s := new DefaultHttpSession(cls);
    if authorizer.Some? {
      s := authorizer.value.Authorize(s);
    }
  }

  /** The registry key of a session class: its name followed by the salt. */
  function ContextKey(cls: string, salt: string): (key: string)
    ensures |key| == |cls| + |salt|
    ensures key[..|cls|] == cls && key[|cls|..] == salt
  {
    cls + salt
  }

  /**
   * With the same salt, distinct class names get distinct keys. The key
   * holds the name only, so two distinct classes sharing a name share one
   * key.
   */
  lemma ContextKeyInjective(c1: string, c2: string, salt: string)
    requires ContextKey(c1, salt) == ContextKey(c2, salt)
    ensures c1 == c2
  {
    assert c1 == ContextKey(c1, salt)[..|c1|];
  }

  /** The application context: a mapping from keys to the sessions stored under them. */
  class Context {
    var entries: map<string, DefaultHttpSession>

    constructor()
      ensures entries == map[]
    {
      entries := map[];
    }

    /** Python's `setdefault`: the stored session when `key` is present, otherwise `value`, now stored. */
    method SetDefault(key: string, value: DefaultHttpSession) returns (r: DefaultHttpSession)
      modifies this`entries
      ensures key in old(entries) ==> r == old(entries[key]) && entries == old(entries)
      ensures key !in old(entries) ==> r == value && entries == old(entries)[key := value]
    {
      if key in entries {
        r := entries[key];
      } else {
        entries := entries[key := value];
        r := value;
      }
    }
  }

  /**
   * The session stored in `context` under the class's key, or a new one,
   * stored there. The new session is built (and authorized) before the
   * lookup, so a later call's authorizer has no effect on a stored session.
   */
  method FromContext(cls: string, context: Context, authorizer: Option<StaticTokenSessionAuthorizer>)
    returns (s: DefaultHttpSession)
    modifies context`entries
    ensures var key := ContextKey(cls, "");
      && (key in old(context.entries) ==> s == old(context.entries[key]) && context.entries == old(context.entries))
      && (key !in old(context.entries) ==>
            && fresh(s) && s.cls == cls && s.headers == InitialHeaders() && s.auth == AuthFor(authorizer)
            && context.entries == old(context.entries)[key := s])
  {
    var key := ContextKey(cls, "");
    var created := Initialize(cls, authorizer);
    s := context.SetDefault(key, created);
  }

  /** The session from the application context when there is one (`context != null`), otherwise a new one. */
  method FromAppContextOrNew(cls: string, context: Context?, authorizer: Option<StaticTokenSessionAuthorizer>)
    returns (s: DefaultHttpSession)
    modifies if context == null then {} else {context}
    ensures context == null ==> fresh(s) && s.cls == cls && s.headers == InitialHeaders() && s.auth == AuthFor(authorizer)
    ensures context != null ==> var key := ContextKey(cls, "");
      && (key in old(context.entries) ==> s == old(context.entries[key]) && context.entries == old(context.entries))
      && (key !in old(context.entries) ==>
            && fresh(s) && s.cls == cls && s.headers == InitialHeaders() && s.auth == AuthFor(authorizer)
            && context.entries == old(context.entries)[key := s])
  {
    if context == null {
      s := Initialize(cls, authorizer);
    } else {
      s := FromContext(cls, context, authorizer);
    }
  }

  /**
   * Two lookups of the same session class in one context yield the same
   * session: the one stored before, or else the one the first lookup built
   * under the first authorizer. The second authorizer is ignored.
   */
  method SessionReuse(cls: string, context: Context, first: Option<StaticTokenSessionAuthorizer>,
                      second: Option<StaticTokenSessionAuthorizer>)
    returns (s1: DefaultHttpSession, s2: DefaultHttpSession)
    modifies context`entries
    ensures s1 == s2
    ensures ContextKey(cls, "") in old(context.entries) ==> s1 == old(context.entries[ContextKey(cls, "")])
    ensures ContextKey(cls, "") !in old(context.entries) ==> fresh(s1) && s1.auth == AuthFor(first)
    ensures ContextKey(cls, "") in context.entries && context.entries[ContextKey(cls, "")] == s1
  {
    s1 := FromContext(cls, context, first);
    s2 := FromContext(cls, context, second);
  }
}
