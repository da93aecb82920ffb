# apikit gateway resolution, in Dafny

apikit lets a client declare an HTTP endpoint as a class attribute: a
*gateway specification* collects a URL, an HTTP method, request and response
adapters, models, a session class, an authorizer and a gateway class. It
takes them from the call's keyword arguments, from the declaring class's body
and from its ancestors, and from system defaults. It checks the URL and the
method, builds the adapters and a session, and binds a *request gateway*. A
call on the gateway prepares a request (the data becomes query parameters or
a JSON body depending on the method), sends it through the session, and turns
the response into a model value. An error status raises instead.

This project models that core and proves its rules:

- `wrappers.dfy`: `Option` and `Result`.
- `protocols.dfy`: the vocabulary.
  - The five methods, with their wire names.
  - The exceptions raised.
  - The request description, the prepared request and the response of the transport library.
- `urlparse.dfy`: whether a URL has both a scheme and a network location, as `urlparse` decides it.
- `session.py` → `session.dfy`:
  - the bearer-token header injector;
  - the static-token authorizer, its masked rendering and `authorize`;
  - the default session and its headers;
  - the application-context registry with `setdefault` semantics.
- `default.py` → `default.dfy`:
  - the method classification;
  - the request adapter, a `method` that fills the request step by step;
  - the response adapter;
  - the gateway, a `class` whose constructor stores its fields, with methods `Prepare`, `Egress`, `Ingress` and `Call`.
- `specs.py` → `specs.dfy`:
  - `get_url`;
  - precedence over layers of declarations, with Python truthiness;
  - the checks in the source's order;
  - class-or-instance adapter construction;
  - the GET and POST specification classes;
  - the spec object, a `class` whose `InitFn` acquires a session and writes `gateway`.

Configuration is an explicit list of layers. One `Layer` holds the call's
keyword arguments. Then each class body in the inheritance chain holds what
it declares, nearest first. A field is `Undeclared` or `Declared(v)`, and `v`
may be Python's `None` or another falsy value. The body of the class being
instantiated plays two parts. It is the keyword default `MetaSpec` injects
with `partialmethod`, which a call's keyword overrides. It is also the first
class `getattr` looks in.

The schema codec (`dump_python`, `validate_json`) and the transport's
`prepare_request` and `send` are function-valued parameters
(`Default.Collaborators`). The application context is a `Session.Context`
object; `null` stands for "no application context".

The model follows the code as written, in particular:

- Missing URL or method raises `AssertionError`. `ValueError` is raised when
  neither the URL nor the base URL has both a scheme and a network location:
  "mailto:x" with no base URL raises, while "/x" after an absolute base URL
  does not. No dedicated configuration error exists.
- The request adapter passes the gateway's headers to `prepare_request`
  unchanged. The transport's `prepare_request` then merges in the session's
  headers and auth; that merge is inside the abstract `prepareRequest`.
- The session registry key is the class name followed by the salt (empty by
  default). It does not involve a timeout.
- The gateway's send step is `egress`.

## Model

| member | source | states |
|---|---|---|
| UrlParse.Find | apikit/specs.py:24-25 | `str.find`: -1 when the character does not occur from `from` on, otherwise its first index there |
| UrlParse.SplitScheme | apikit/specs.py:24-25 | a scheme is split off exactly when the text before the first ':' is non-empty, letter-led and made of scheme characters, and it is that text, and then url == scheme + ":" + rest; otherwise the URL is left whole |
| UrlParse.NetlocEnd | apikit/specs.py:24-25 | the network location ends at the first '/', '?' or '#' after its start, or at the end |
| UrlParse.Netloc | apikit/specs.py:24-28 | a non-empty network location follows a leading "//" and holds no '/', '?' or '#' |
| UrlParse.HasSchemeAndNetloc | apikit/specs.py:26-28 | `parsed.scheme and parsed.netloc`: a URL that has both contains a ':' after a non-empty prefix |
| UrlParse.NetlocNonEmpty | apikit/specs.py:24-28 | the network location is non-empty exactly when "//" is followed by a character that is not '/', '?' or '#' |
| UrlParse.AbsoluteExtends | apikit/specs.py:33-34 | appending anything to a URL with scheme and network location keeps both, so a joined URL is absolute |
| UrlParse.SchemeAndHost | apikit/specs.py:24-28 | a letter-led scheme, ':' and "//" followed by a host character give a URL with scheme and network location |
| UrlParse.NoColonIsRelative | apikit/specs.py:24-28 | a URL without ':' has no scheme, hence counts as relative |
| Specs.IsAbsolute | apikit/specs.py:25-28 | `urlparse(base_url)` has scheme and network location; such a base is a non-empty string, and `None` never is one |
| Specs.GetUrl | apikit/specs.py:23-35 | an absolute URL is returned unchanged whatever the base; a relative one after an absolute base gives exactly base + url; otherwise ValueError (both directions of the failure condition) |
| Specs.TestHostIsAbsolute | apikit/specs.py:24-28 | "https://test.com" has scheme and network location |
| Specs.TestPathIsRelative | apikit/specs.py:24-28 | "/test" has neither |
| Specs.Kwarg | apikit/specs.py:141-144 | the keyword `_init_fn` receives: the call's when passed (even falsy), else the one the class's own body declares, else the signature default; ancestors never contribute |
| Specs.PyOr | apikit/specs.py:88-113 | Python's `a or b`: `a` when truthy, else `b`; the result is truthy exactly when one of them is |
| Specs.Inherit | apikit/specs.py:88-113 | with a falsy signature default, the field is the call's keyword when that is truthy and otherwise the nearest declaration: a falsy keyword such as `None`, passed or not, falls through to the classes |
| Specs.ResolveFields | apikit/specs.py:88-113 | the call's truthy URL and its method win; adapters, session class and gateway fall back to the defaults when the call passes nothing or `None` and the nearest declaring class gives nothing |
| Specs.Instantiate | apikit/specs.py:117-127 | a class is instantiated, an object is used as it is |
| Specs.GetAttr | apikit/specs.py:88-113 | `getattr` yields the value of the nearest class that declares the field, even a falsy one, and the fallback when none does |
| Specs.DeclaredValues | apikit/specs.py:88-113 | the declarations along the chain, nearest first; none when no class declares the field |
| Specs.FirstTruthy | apikit/specs.py:88-113 | reference definition of precedence: the first truthy candidate, None when there is none |
| Specs.GetAttrIsFirstDeclared | apikit/specs.py:88-113 | `getattr` is the first entry of the declared values, or the fallback when there are none |
| Specs.GetAttrSkipsUndeclared | apikit/specs.py:88-113 | classes that do not declare a field are skipped by `getattr` |
| Specs.PrecedenceIsFirstTruthy | apikit/specs.py:88-113 | when no class declares a falsy value, a field resolves to the first truthy value among the call's keyword and the class declarations, nearest first |
| Specs.FalsyDeclarationShadows | apikit/specs.py:88-113 | a falsy value declared by a class hides every truthy value of its ancestors |
| Specs.InheritSkipsEmptyLayer | apikit/specs.py:88-113 | an empty class body between the call and the chain changes no resolved field |
| Specs.FieldsSkipEmptyLayer | apikit/specs.py:88-113 | all fields resolve the same through an empty subclass |
| Specs.EmptySubclassInherits | apikit/specs.py:85-136 | a subclass declaring nothing resolves like its parent (URL, base URL, method, models, adapters, session, authorizer, gateway); only the timeout differs, coming from the call alone |
| Specs.EmptySubclassBuildsSameUrl | apikit/specs.py:88-91 | an empty subclass builds exactly when its parent does, with the same joined URL |
| Specs.FinishIgnoresTimeout | apikit/specs.py:85-136 | the checks do not depend on the timeout, which is carried into the configuration as given |
| Specs.Finish | apikit/specs.py:85-127 | a configuration is only built on a URL with scheme and network location; past the early return with a URL, `get_url`'s error propagates as it is, and otherwise a resolved method builds on the joined URL with the resolved method, session class, authorizer and gateway |
| Specs.Resolve | apikit/specs.py:38-127 | a built configuration always carries an absolute URL |
| Specs.GatewayObjectReturnedAsIs | apikit/specs.py:85-86 | a gateway object passed to the call or declared in the class's own body is returned before any check, even with no URL or method |
| Specs.InheritedGatewayObjectNotShortCircuited | apikit/specs.py:85-113 | a gateway object declared by a parent class is returned by that class but not by an empty subclass, which goes on to use it as the gateway class |
| Specs.UrlCheckedFirst | apikit/specs.py:88-89 | with no non-empty URL from the call or any class, "url must be provided" is raised whatever else is missing |
| Specs.NoUrlResolved | apikit/specs.py:88 | with no non-empty URL anywhere, the URL resolves to a falsy value |
| Specs.FinishWithoutUrl | apikit/specs.py:85-89 | without a gateway object and without a URL the URL assertion fails |
| Specs.MethodCheckedAfterUrl | apikit/specs.py:88-94 | "method must be provided" is raised exactly when the URL is present and joins and no method resolves |
| Specs.BaseUrlJoined | apikit/specs.py:90-91 | a class declaring GET and an absolute base URL, called with a relative URL, builds on base + url |
| Specs.BaseUrlSpecFields | apikit/specs.py:88-94 | the URL, base URL and method that class resolves to |
| Specs.FinishJoins | apikit/specs.py:89-94 | a relative URL after an absolute base, with a method, builds on their concatenation |
| Specs.SameBuildUrl | apikit/specs.py:88-91 | resolutions equal but for the timeout build with the same URL |
| Specs.RelativeUrlWithoutBase | apikit/specs.py:26-32 | the GET class called with "/test" and no base URL raises ValueError |
| Specs.MethodSpecFixes | apikit/specs.py:188-193 | under a class fixing method m, with the call passing no method or `None` and no subclass body declaring one, the method is m and "method must be provided" is never raised |
| Specs.NoneMethodShadowsSpecMethod | apikit/specs.py:93-94 | a subclass body declaring `method = None` hides the method of the class above it, so "method must be provided" is raised |
| Specs.MethodSpecExamples | apikit/specs.py:188-193 | the GET and POST specification classes called with only an absolute URL build with GET and POST |
| Specs.DefaultsApply | apikit/specs.py:99-113 | with only URL and method given: default request and response adapters without models, the default session class, no authorizer, the default gateway class |
| Specs.AdapterReference | apikit/specs.py:117-127 | an adapter class is built with the resolved model; an adapter object is used unchanged |
| Specs.BindKeywords | apikit/specs.py:129-136 | keyword binding succeeds exactly when every passed keyword is a parameter, and otherwise raises TypeError |
| Specs.GatewayCall | apikit/specs.py:129-136 | calling the resolved gateway binds exactly when it is a class whose parameters include every keyword `_init_fn` passes; a gateway object (whose `__call__` takes only `params`) or a missing parameter raises TypeError |
| Specs.GatewayCallAsWrittenRaises | apikit/specs.py:129-136 | as written, calling the default gateway class raises TypeError for every configuration, `timeout` being the keyword its constructor lacks |
| Specs.GatewayCallBinds | apikit/specs.py:129-136 | with the timeout accepted, the default gateway class binds for every configuration |
| Specs.UndeclaredGatewayIsDefault | apikit/specs.py:113 | when the call and every class pass no gateway or `None`, every successful resolution builds with the default gateway class |
| Specs.GetAttrOfNones | apikit/specs.py:113 | when every class leaves a field undeclared or declares it `None`, `getattr` yields `None` |
| Specs.DefaultGatewayBuildRaises | apikit/specs.py:113-136 | as written, every specification whose call and classes give no gateway or `None`, and that passes the URL and method checks raises TypeError when it calls the gateway |
| Specs.GatewaySpec.Bind | apikit/specs.py:113-136 | the session is acquired first, from the context (stored under the class key, reused when present) or new and authorized; a gateway call that does not bind raises TypeError and leaves `gateway` unset; otherwise a fresh gateway holds the URL, method, timeout, adapters and that session |
| Specs.GatewaySpec.InitFn | apikit/specs.py:38-136 | a resolution error is raised with nothing changed; a gateway object is returned with nothing changed; a build that does not bind raises TypeError, which as written is every build with the default gateway class; otherwise `gateway` is set to a fresh gateway over the resolved configuration and session; without a context that session is fresh, of the resolved class, with the initial headers and the authorizer's auth |
| Protocols.HttpMethod.Value | apikit/protocols.py:9-14 | the enum value of each method: its upper-case name as sent |
| Protocols.ValueInjective | apikit/protocols.py:9-14 | distinct methods have distinct values |
| Protocols.IsErrorStatus | apikit/default.py:52 | `raise_for_status` raises for client and server errors (400-599) and not for informational, success or redirect statuses (100-399) |
| Default.IsLikePost | apikit/default.py:22-23 | POST-like exactly for the wire names POST, PUT and PATCH |
| Default.IsLikeGet | apikit/default.py:18-23 | every method is exactly one of GET-like and POST-like |
| Default.RequestFor | apikit/default.py:93-99 | the method string is the enum value, URL and headers pass through, and the data sits under `params` for GET/OPTIONS and under `json` otherwise, never both |
| Default.RequestAdapter.Adapt | apikit/default.py:84-100 | the data is encoded once; an encoding error propagates; otherwise the session prepares the request with that encoding placed by method |
| Default.ResponseAdapter.Adapt | apikit/default.py:39-55 | an error status raises before any decoding; without a model the very response is returned; with a model the result is the codec's decoded value, or its error propagated |
| Default.ErrorStatusPrecedesDecoding | apikit/default.py:52-54 | on an error status the result depends on neither the model nor the codec |
| Default.RequestGateway.constructor | apikit/default.py:118-133 | fields are stored unchanged; a missing adapter becomes a default one without a model |
| Default.RequestGateway.Prepare | apikit/default.py:135-142 | the request adapter applied to the stored session, URL, method and headers |
| Default.RequestGateway.Egress | apikit/default.py:144-145 | the request is sent through the stored session |
| Default.RequestGateway.Ingress | apikit/default.py:147-148 | the response adapter applied to the response |
| Default.RequestGateway.Call | apikit/default.py:150-153 | a call is ingress(egress(prepare(params))); an encoding error stops it before anything is sent |
| Session.BearerTokenAuth.Apply | apikit/session.py:23-25 | Authorization becomes "Bearer " + token, every other header is kept, and the same request is returned |
| Session.Repeat | apikit/session.py:34 | Python's string repetition: n copies, none for n <= 0 |
| Session.TailSlice | apikit/session.py:34 | Python's `s[-n:]`: the last n characters, or all of a shorter string |
| Session.Obfuscate | apikit/session.py:34 | same length as the token, '*' everywhere but the last four characters, which are kept |
| Session.ObfuscateEqual | apikit/session.py:34 | two tokens mask alike exactly when they have the same length and the same last four characters |
| Session.ShortTokenUnmasked | apikit/session.py:34 | a token of four characters or fewer is shown whole |
| Session.StaticTokenSessionAuthorizer.ToString | apikit/session.py:40-41 | the class name, then the token in parentheses with every character but the last four replaced by '*' |
| Session.StaticTokenSessionAuthorizer.Authorize | apikit/session.py:36-38 | the session's auth becomes a bearer auth with the token, and the same session is returned |
| Session.ToStringReveals | apikit/session.py:40-41 | two authorizers print alike exactly when their tokens have the same length and last four characters |
| Session.ToStringExample | apikit/session.py:40-41 | the authorizer for "test_token" prints as "StaticTokenSessionAuthorizer(******oken)" |
| Session.InitialHeaders | apikit/session.py:51-57 | the transport's headers updated with the gateway's: Content-Type and Accept are application/json, User-Agent is "HTTP Gateway/1.0", other transport headers stay |
| Session.DefaultHttpSession.constructor | apikit/session.py:47-57 | a new session has those headers and no auth |
| Session.AuthFor | apikit/session.py:78-82 | a session carries a bearer auth exactly when an authorizer is given, with that authorizer's token |
| Session.Initialize | apikit/session.py:78-82 | a fresh session of the class, authorized exactly when an authorizer is given |
| Session.ContextKey | apikit/session.py:94-96 | the key is the class name followed by the salt |
| Session.ContextKeyInjective | apikit/session.py:94-96 | with one salt, distinct class names get distinct keys |
| Session.Context.SetDefault | apikit/session.py:71-74 | a present key yields the stored session and changes nothing; otherwise the value is stored and returned |
| Session.FromContext | apikit/session.py:65-76 | the stored session for the class key, context unchanged; otherwise a fresh, possibly authorized session, now stored |
| Session.FromAppContextOrNew | apikit/session.py:84-92 | with an application context, `FromContext`; without one, a fresh session |
| Session.SessionReuse | apikit/session.py:65-76 | two lookups of one class in one context yield the same session: the one stored before, or else a fresh one carrying the first authorizer's auth, so the second authorizer is ignored |

## Left out

- The ValueError `urlsplit` raises through `_checknetloc` for a non-ASCII network location whose NFKC form contains '/', '?', '#', '@' or ':'. The model does no Unicode normalisation, so such a URL is accepted.
- Session.StaticTokenSessionAuthorizer.ToString: `__str__` prints `type(self).__name__`, so a subclass prints its own name. The model has no authorizer subclasses and always prints "StaticTokenSessionAuthorizer".
- Network I/O, `prepare_request` and `send`: function-valued parameters. Their results are taken as given.
- The merge inside `prepare_request`: the transport merges the session's headers (`Session.InitialHeaders`) and its auth (the `BearerTokenAuth` that `Authorize` installs) into every request. That happens inside the abstract `prepareRequest`, so no contract states the merged headers.
- The schema codec (pydantic `TypeAdapter`): `dump_python` with `exclude_none`/`exclude_unset` and `validate_json` are function-valued parameters over a small JSON datatype. Models are identified by name. The dataclass, TypedDict and BaseModel distinctions are not modelled.
- `raise_for_status`: a status of 400 or more counts as an error, and its exact range in the transport library is not modelled. Only the status and reason are kept.
- `urlparse`:
  - The scheme is the text before the first ':' when it starts with an ASCII letter and holds only scheme characters.
  - The network location runs from "//" to the next '/', '?' or '#'.
  - Not modelled: stripping whitespace and control characters, lowercasing the scheme, the ValueError for malformed IPv6 hosts, and byte-string inputs. `urlparse(None)` counts as having no scheme.
- Python mechanics:
  - The metaclass, `partialmethod`, `dataclass_transform` and the descriptor `__get__`/`__set_name__` are replaced by explicit layers.
  - `isclass` is replaced by the tagged `Ref` (class or object).
  - Multiple inheritance and the method resolution order: the chain is one linear sequence of class bodies.
  - The non-`None` return of `__init__` on the early-return path.
- Fields other than the configuration fields: the keyword arguments swallowed by `**kwargs` and class-body entries such as `__module__`. They do not influence resolution.
- A custom adapter, session or gateway class: it is named by its class and assumed to behave like the default one. A gateway class fails only on keyword binding (`Specs.GatewayCall`, over its parameter names); the other constructors cannot fail in the model.
- `StaticTokenSessionAuthorizer.__init__` asserts that the token is a string. Tokens are strings by type here, so that branch cannot arise.
- Flask's `current_app` and the bare `except` in `from_app_context_or_new`: a context is a `Context` object with `setdefault`, and its absence is `null`. Flask's application object has no `setdefault`, so in the program `from_app_context_or_new` always reaches `_initialize` through the bare `except`. The registry clauses of `FromAppContextOrNew`, `Bind` and `InitFn` describe a mapping passed directly to `from_context`.
- Session.ContextKeyInjective: the key holds the class's `__name__` only, so two distinct session classes with the same name share one key in the registry, and the second is handed the first's session. The model names classes by that name and cannot tell them apart.
- The per-request timeout `(3.5, timeout)` that the tests expect on sends is not implemented by the gateway. The model carries the timeout as a stored field only.
- Retry and `HTTPAdapter` mounting, logging, the sqlite-cached session class.
- Header names are exact strings: the transport library's case-insensitive header dictionary is not modelled. Its default User-Agent is shown without its version number, and its default Accept-Encoding without the "br" and "zstd" entries it adds when those decoders are installed.
- Session.FromContext: a session found in the context keeps whatever class and auth it was stored with. The contract says nothing about its class.
- Specs.GatewaySpec.InitFn: the session facts for a stored session are stated in `Bind`. `InitFn` states the gateway's fields and where its session is registered.

## Findings

| source | as written | input that shows it | evidently intended | confidence | as-written member | corrected member |
|---|---|---|---|---|---|---|
| apikit/specs.py:129-136 | `_init_fn` calls the gateway class with `timeout=timeout`. The default gateway's constructor (apikit/default.py:118-127) has no `timeout` parameter and no `**kwargs`. | `HTTPGatewaySpec(url="https://test.com", method=HTTPMethod.GET)`: binding raises TypeError for `timeout`. | The gateway accepts the timeout: tests/test_specs.py:243-269 builds a spec with a timeout and expects it on the request. | high, not executed | Specs.DefaultGatewayBuildRaises | Default.RequestGateway.constructor |
