/**
 * The specification resolver. A gateway specification gathers its
 * configuration from the call's keyword arguments, from the body of the
 * class being instantiated, from the nearest class in its inheritance chain
 * that declares a field, and from system defaults; it checks that a URL and
 * a method were given, joins the URL with the base URL, builds the adapters
 * and the session, and binds a request gateway.
 *
 * Python's truthiness decides every step: `a or b` is `a` when `a` is
 * truthy and `b` otherwise. `None`, "" and 0 are falsy; enum members,
 * classes and instances are truthy.
 */
module Specs {
  import opened Wrappers
  import opened Protocols
  import opened UrlParse
  import Session
  import Default

  /** A field of one class body: declared (possibly as a falsy value) or not declared at all. */
  datatype Decl<T> = Undeclared | Declared(value: T)

  /** A reference to a class, by name, or to an object already built. */
  datatype Ref<A> = ClassRef(name: string) | InstanceRef(obj: A)

  /**
   * One layer of configuration: the keyword arguments of a call, or the
   * attributes one class body declares. `None` inside a declaration is
   * Python's `None`.
   */
  datatype Layer = Layer(
    url: Decl<Option<string>>,
    httpMethod: Decl<Option<HttpMethod>>,
    baseUrl: Decl<Option<string>>,
    timeout: Decl<Option<int>>,
    requestAdapter: Decl<Option<Ref<Default.RequestAdapter>>>,
    responseAdapter: Decl<Option<Ref<Default.ResponseAdapter>>>,
    requestModel: Decl<Option<Model>>,
    responseModel: Decl<Option<Model>>,
    session: Decl<Option<string>>,
    authorizer: Decl<Option<Session.StaticTokenSessionAuthorizer>>,
    gateway: Decl<Option<Ref<Default.RequestGateway>>>)

  // The fields of a layer, one projection each, so that precedence can be stated once for all of them.
  function UrlField(l: Layer): Decl<Option<string>> { l.url }
  function MethodField(l: Layer): Decl<Option<HttpMethod>> { l.httpMethod }
  function BaseUrlField(l: Layer): Decl<Option<string>> { l.baseUrl }
  function TimeoutField(l: Layer): Decl<Option<int>> { l.timeout }
  function RequestAdapterField(l: Layer): Decl<Option<Ref<Default.RequestAdapter>>> { l.requestAdapter }
  function ResponseAdapterField(l: Layer): Decl<Option<Ref<Default.ResponseAdapter>>> { l.responseAdapter }
  function RequestModelField(l: Layer): Decl<Option<Model>> { l.requestModel }
  function ResponseModelField(l: Layer): Decl<Option<Model>> { l.responseModel }
  function SessionField(l: Layer): Decl<Option<string>> { l.session }
  function AuthorizerField(l: Layer): Decl<Option<Session.StaticTokenSessionAuthorizer>> { l.authorizer }
  function GatewayField(l: Layer): Decl<Option<Ref<Default.RequestGateway>>> { l.gateway }

  /** A call without keyword arguments, or a class body that declares no field. */
  const EmptyLayer: Layer :=
    Layer(Undeclared, Undeclared, Undeclared, Undeclared, Undeclared, Undeclared,
          Undeclared, Undeclared, Undeclared, Undeclared, Undeclared)

  /** The body of the specification class that fixes the method to `m`. */
  function MethodSpecLayer(m: HttpMethod): Layer
  {
    EmptyLayer.(httpMethod := Declared(Some(m)))
  }

  /** The body of the GET specification class. */
  const GetSpecLayer: Layer := MethodSpecLayer(GET)

  /** The body of the POST specification class. */
  const PostSpecLayer: Layer := MethodSpecLayer(POST)

  /** Truthiness of an optional string: present and non-empty. */
  predicate StrTruthy(v: Option<string>)
  {
    v.Some? && v.value != ""
  }

  /** Truthiness of an optional enum member, class or object: present. */
  predicate ObjTruthy<T>(v: Option<T>)
  {
    v.Some?
  }

  /**
   * The keyword argument `_init_fn` receives: the call's own when the call
   * passes it (even as a falsy value), otherwise the one the class body
   * declares, otherwise the parameter's default. `chain[0]` is the class
   * being instantiated, followed by its ancestors, nearest first.
   */
  function Kwarg<T>(call: Layer, chain: seq<Layer>, f: Layer -> Decl<T>, signatureDefault: T): (kw: T)
    ensures f(call).Declared? ==> kw == f(call).value
    ensures f(call).Undeclared? && |chain| > 0 && f(chain[0]).Declared? ==> kw == f(chain[0]).value
    ensures f(call).Undeclared? && (|chain| == 0 || f(chain[0]).Undeclared?) ==> kw == signatureDefault
  {
    if f(call).Declared? then f(call).value
    else if |chain| > 0 && f(chain[0]).Declared? then f(chain[0]).value
    else signatureDefault
  }

  /** No class before position `i` declares the field. */
  predicate NoneBefore<T>(chain: seq<Layer>, f: Layer -> Decl<T>, i: int)
  {
    forall j :: 0 <= j < i && j < |chain| ==> f(chain[j]).Undeclared?
  }

  /** Python's `getattr(self, name, missing)`: the value of the nearest class that declares the field. */
  function GetAttr<T>(chain: seq<Layer>, f: Layer -> Decl<T>, missing: T): (r: T)
    ensures (forall i :: 0 <= i < |chain| ==> f(chain[i]).Undeclared?) ==> r == missing
    ensures forall i :: 0 <= i < |chain| && f(chain[i]).Declared? && NoneBefore(chain, f, i) ==> r == f(chain[i]).value
  {
    if |chain| == 0 then missing
    else if f(chain[0]).Declared? then f(chain[0]).value
    else GetAttr(chain[1..], f, missing)
  }

  /** Python's `a or b`. */
  function PyOr<T>(a: T, b: T, truthy: T -> bool): (r: T)
    ensures truthy(a) ==> r == a
    ensures !truthy(a) ==> r == b
    ensures truthy(r) <==> truthy(a) || truthy(b)
  {
    if truthy(a) then a else b
  }

  /** `kwarg or getattr(self, name, None)`: how `_init_fn` resolves a field. */
  function Inherit<U>(call: Layer, chain: seq<Layer>, f: Layer -> Decl<Option<U>>,
                      signatureDefault: Option<U>, truthy: Option<U> -> bool): (r: Option<U>)
    ensures f(call).Declared? && truthy(f(call).value) ==> r == f(call).value
    ensures f(call).Undeclared? && !truthy(signatureDefault) ==>
              (truthy(r) <==> truthy(GetAttr(chain, f, None))) && (truthy(r) ==> r == GetAttr(chain, f, None))
    ensures !truthy(signatureDefault) ==>
              r == if f(call).Declared? && truthy(f(call).value) then f(call).value else GetAttr(chain, f, None)
  {
    PyOr(Kwarg(call, chain, f, signatureDefault), GetAttr(chain, f, None), truthy)
  }

  /** Whether `urlparse(v)` has a scheme and a network location; `None` has neither. */
  predicate IsAbsolute(v: Option<string>)
    ensures IsAbsolute(v) ==> StrTruthy(v)
    ensures v.None? ==> !IsAbsolute(v)
  {
    v.Some? && HasSchemeAndNetloc(v.value)
  }

  /**
   * Joins a URL with a base URL: an absolute URL is kept whatever the base;
   * a relative one is appended to an absolute base as it is, with no slash
   * added or removed; with neither absolute, ValueError is raised.
   */
  function GetUrl(baseUrl: Option<string>, url: string): (r: Result<string, Error>)
    ensures r.Success? ==> HasSchemeAndNetloc(r.value)
    ensures r.Failure? <==> !HasSchemeAndNetloc(url) && !IsAbsolute(baseUrl)
    ensures r.Failure? ==> r.error.ValueError?
    ensures HasSchemeAndNetloc(url) ==> r == Success(url)
    ensures !HasSchemeAndNetloc(url) && IsAbsolute(baseUrl) ==> r == Success(baseUrl.value + url)
  {
    if !(HasSchemeAndNetloc(url) || IsAbsolute(baseUrl)) then
      Failure(ValueError("Either the base_url or url must be a valid URL with scheme and netloc."))
    else if !HasSchemeAndNetloc(url) then
      AbsoluteExtends(baseUrl.value, url);
      Success(baseUrl.value + url)
    else
      Success(url)
  }

  /** Python's `ref(model=...) if isclass(ref) else ref`: a class is instantiated, an instance kept. */
  function Instantiate<A>(ref: Ref<A>, make: string -> A): (obj: A)
    ensures ref.ClassRef? ==> obj == make(ref.name)
    ensures ref.InstanceRef? ==> obj == ref.obj
  {
    match ref
    case ClassRef(name) => make(name)
    case InstanceRef(obj) => obj
  }

  const DefaultSessionClass: string := "DefaultHttpSession"
  const DefaultGatewayClass: string := "DefaultHTTPRequestGateway"

  const UrlMissing: Error := AssertionError("url must be provided")
  const MethodMissing: Error := AssertionError("method must be provided")

  /** Everything a gateway is built from, once every field is resolved and the adapters are built. */
  datatype Config = Config(
    url: string,
    httpMethod: HttpMethod,
    timeout: Option<int>,
    requestModel: Option<Model>,
    responseModel: Option<Model>,
    requestAdapter: Default.RequestAdapter,
    responseAdapter: Default.ResponseAdapter,
    sessionClass: string,
    authorizer: Option<Session.StaticTokenSessionAuthorizer>,
    gateway: Ref<Default.RequestGateway>)

  /** What resolution decides: hand back a gateway passed in already built, or build one from a configuration. */
  datatype Resolution = Existing(gateway: Default.RequestGateway) | Build(config: Config)

  /**
   * Every field as `_init_fn` resolves it, before anything is checked: the
   * keyword argument or the nearest declaration, then the system default
   * for the adapters, the session class and the gateway class. The
   * lookups have no effects, so computing them all at once changes nothing.
   */
  datatype Fields = Fields(
    url: Option<string>,
    baseUrl: Option<string>,
    httpMethod: Option<HttpMethod>,
    requestModel: Option<Model>,
    responseModel: Option<Model>,
    requestAdapter: Ref<Default.RequestAdapter>,
    responseAdapter: Ref<Default.ResponseAdapter>,
    sessionClass: string,
    authorizer: Option<Session.StaticTokenSessionAuthorizer>,
    gateway: Ref<Default.RequestGateway>)

  /** `x or getattr(self, name, None)`, and `or Default` where the source has one. */
  function ResolveFields(call: Layer, chain: seq<Layer>): (fs: Fields)
    ensures call.url.Declared? && StrTruthy(call.url.value) ==> fs.url == call.url.value
    ensures call.httpMethod.Declared? && call.httpMethod.value.Some? ==> fs.httpMethod == call.httpMethod.value
    ensures (call.requestAdapter.Undeclared? || call.requestAdapter.value.None?) && GetAttr(chain, RequestAdapterField, None).None? ==>
              fs.requestAdapter == ClassRef(Default.DefaultRequestAdapterClass)
    ensures (call.responseAdapter.Undeclared? || call.responseAdapter.value.None?) && GetAttr(chain, ResponseAdapterField, None).None? ==>
              fs.responseAdapter == ClassRef(Default.DefaultResponseAdapterClass)
    ensures (call.session.Undeclared? || call.session.value.None?) && GetAttr(chain, SessionField, None).None? ==> fs.sessionClass == DefaultSessionClass
    ensures (call.gateway.Undeclared? || call.gateway.value.None?) && GetAttr(chain, GatewayField, None).None? ==>
              fs.gateway == ClassRef(DefaultGatewayClass)
  {
    Fields(
      Inherit(call, chain, UrlField, None, StrTruthy),
      Inherit(call, chain, BaseUrlField, Some(""), StrTruthy),
      Inherit(call, chain, MethodField, None, ObjTruthy),
      Inherit(call, chain, RequestModelField, None, ObjTruthy),
      Inherit(call, chain, ResponseModelField, None, ObjTruthy),
      // For these object-valued fields truthy means present.
      Inherit(call, chain, RequestAdapterField, None, ObjTruthy).GetOr(ClassRef(Default.DefaultRequestAdapterClass)),
      Inherit(call, chain, ResponseAdapterField, None, ObjTruthy).GetOr(ClassRef(Default.DefaultResponseAdapterClass)),
      Inherit(call, chain, SessionField, None, ObjTruthy).GetOr(DefaultSessionClass),
      Inherit(call, chain, AuthorizerField, None, ObjTruthy),
      Inherit(call, chain, GatewayField, None, ObjTruthy).GetOr(ClassRef(DefaultGatewayClass)))
  }

  /**
   * The checks of `_init_fn`, in the source's order: the early return for
   * a gateway object passed in, the URL (asserted present, then joined with
   * the base URL), the method (asserted present); then the adapters are
   * built with the models.
   */
  function Finish(early: Option<Ref<Default.RequestGateway>>, fs: Fields, timeout: Option<int>): (r: Result<Resolution, Error>)
    ensures r.Success? && r.value.Build? ==> HasSchemeAndNetloc(r.value.config.url)
    ensures !(early.Some? && early.value.InstanceRef?) && StrTruthy(fs.url) ==>
              var g := GetUrl(fs.baseUrl, fs.url.value);
              && (g.Failure? ==> r == Failure(g.error))
              && (g.Success? && fs.httpMethod.Some? ==>
                    && r.Success? && r.value.Build? && r.value.config.url == g.value
                    && r.value.config.httpMethod == fs.httpMethod.value
                    && r.value.config.sessionClass == fs.sessionClass
                    && r.value.config.authorizer == fs.authorizer && r.value.config.gateway == fs.gateway)
  {
    if early.Some? && early.value.InstanceRef? then
      Success(Existing(early.value.obj))
    else if !StrTruthy(fs.url) then
      Failure(UrlMissing)
    else
      match GetUrl(fs.baseUrl, fs.url.value)
      case Failure(e) => Failure(e)
      case Success(fullUrl) =>
        if fs.httpMethod.None? then
          Failure(MethodMissing)
        else
          Success(Build(Config(
            fullUrl,
            fs.httpMethod.value,
            timeout,
            fs.requestModel,
            fs.responseModel,
            Instantiate(fs.requestAdapter, (c: string) => Default.RequestAdapter(c, fs.requestModel)),
            Instantiate(fs.responseAdapter, (c: string) => Default.ResponseAdapter(c, fs.responseModel)),
            fs.sessionClass,
            fs.authorizer,
            fs.gateway)))
  }

  /** The pure part of `_init_fn`: the timeout and the early-return gateway come from the keyword argument alone. */
  function Resolve(call: Layer, chain: seq<Layer>): (r: Result<Resolution, Error>)
    ensures r.Success? && r.value.Build? ==> HasSchemeAndNetloc(r.value.config.url)
  {
    Finish(Kwarg(call, chain, GatewayField, None), ResolveFields(call, chain), Kwarg(call, chain, TimeoutField, None))
  }

  /** The values the classes of `chain` declare for a field, nearest first. */
  function DeclaredValues<T>(chain: seq<Layer>, f: Layer -> Decl<T>): (vs: seq<T>)
    ensures |vs| <= |chain|
    ensures (forall i :: 0 <= i < |chain| ==> f(chain[i]).Undeclared?) ==> vs == []
  {
    if |chain| == 0 then []
    else if f(chain[0]).Declared? then [f(chain[0]).value] + DeclaredValues(chain[1..], f)
    else DeclaredValues(chain[1..], f)
  }

  /** The call's own keyword value for a field, if it passes one. */
  function CallValue<T>(call: Layer, f: Layer -> Decl<T>): seq<T>
  {
    if f(call).Declared? then [f(call).value] else []
  }

  /** The first truthy value of `vs`, or `None` when there is none. */
  function FirstTruthy<U>(vs: seq<Option<U>>, truthy: Option<U> -> bool): (r: Option<U>)
    ensures r == None || (r in vs && truthy(r))
    ensures (exists i :: 0 <= i < |vs| && truthy(vs[i])) ==> r in vs && truthy(r)
  {
    if |vs| == 0 then None
    else if truthy(vs[0]) then vs[0]
    else FirstTruthy(vs[1..], truthy)
  }

  /** `getattr` finds the first declaration along the chain, whatever its value. */
  lemma {:induction false} GetAttrIsFirstDeclared<T>(chain: seq<Layer>, f: Layer -> Decl<T>, missing: T)
    ensures GetAttr(chain, f, missing) ==
            if DeclaredValues(chain, f) == [] then missing else DeclaredValues(chain, f)[0]
  {
    if |chain| > 0 && f(chain[0]).Undeclared? {
      GetAttrIsFirstDeclared(chain[1..], f, missing);
    }
  }

  /** Classes that do not declare a field are skipped when looking it up. */
  lemma {:induction false} GetAttrSkipsUndeclared<T>(nearer: seq<Layer>, rest: seq<Layer>, f: Layer -> Decl<T>, missing: T)
    requires forall i :: 0 <= i < |nearer| ==> f(nearer[i]).Undeclared?
    ensures GetAttr(nearer + rest, f, missing) == GetAttr(rest, f, missing)
  {
    if |nearer| > 0 {
      assert (nearer + rest)[0] == nearer[0] && f(nearer[0]).Undeclared?;
      assert (nearer + rest)[1..] == nearer[1..] + rest;
      assert forall i :: 0 <= i < |nearer[1..]| ==> f(nearer[1..][i]).Undeclared? by {
        forall i | 0 <= i < |nearer[1..]| ensures f(nearer[1..][i]).Undeclared? {
          assert nearer[1..][i] == nearer[i + 1];
        }
      }
      GetAttrSkipsUndeclared(nearer[1..], rest, f, missing);
    } else {
      assert nearer + rest == rest;
    }
  }

  /**
   * When no class declares a falsy value and the parameter's default is
   * falsy, a field resolves to the first truthy value among the call's
   * keyword and the classes' declarations, nearest first.
   */
  lemma PrecedenceIsFirstTruthy<U>(call: Layer, chain: seq<Layer>, f: Layer -> Decl<Option<U>>,
                                   signatureDefault: Option<U>, truthy: Option<U> -> bool)
    requires !truthy(signatureDefault) && !truthy(None)
    requires forall v :: v in DeclaredValues(chain, f) ==> truthy(v)
    ensures Inherit(call, chain, f, signatureDefault, truthy) ==
            FirstTruthy(CallValue(call, f) + DeclaredValues(chain, f), truthy)
  {
    var ds := DeclaredValues(chain, f);
    GetAttrIsFirstDeclared(chain, f, None);
    if ds != [] {
      assert truthy(ds[0]);
      assert FirstTruthy(ds, truthy) == ds[0];
    }
    if f(call).Declared? {
      assert CallValue(call, f) + ds == [f(call).value] + ds;
      assert ([f(call).value] + ds)[1..] == ds;
    } else {
      assert CallValue(call, f) + ds == ds;
      if |chain| > 0 && f(chain[0]).Declared? {
        assert ds[0] == f(chain[0]).value;
      }
    }
  }

  /**
   * A falsy value declared by a class hides every truthy value its
   * ancestors declare: the field resolves to that falsy value.
   */
  lemma FalsyDeclarationShadows<U>(call: Layer, nearer: seq<Layer>, declaring: Layer, farther: seq<Layer>,
                                   f: Layer -> Decl<Option<U>>, signatureDefault: Option<U>,
                                   truthy: Option<U> -> bool)
    requires f(call).Undeclared? || !truthy(f(call).value)
    requires forall i :: 0 <= i < |nearer| ==> f(nearer[i]).Undeclared?
    requires f(declaring).Declared? && !truthy(f(declaring).value)
    requires !truthy(signatureDefault)
    ensures Inherit(call, nearer + [declaring] + farther, f, signatureDefault, truthy) == f(declaring).value
  {
    var chain := nearer + [declaring] + farther;
    assert chain == nearer + ([declaring] + farther);
    GetAttrSkipsUndeclared(nearer, [declaring] + farther, f, None);
    if |nearer| == 0 {
      assert chain[0] == declaring;
    } else {
      assert chain[0] == nearer[0];
    }
  }

  /** A class body that declares nothing changes no field that `getattr` resolves. */
  lemma InheritSkipsEmptyLayer<U>(call: Layer, chain: seq<Layer>, f: Layer -> Decl<Option<U>>,
                                  signatureDefault: Option<U>, truthy: Option<U> -> bool)
    requires f(EmptyLayer).Undeclared? && !truthy(signatureDefault)
    ensures Inherit(call, [EmptyLayer] + chain, f, signatureDefault, truthy) ==
            Inherit(call, chain, f, signatureDefault, truthy)
  {
    assert ([EmptyLayer] + chain)[1..] == chain;
  }

  /** A resolution with the timeout forgotten. */
  function WithoutTimeout(r: Result<Resolution, Error>): Result<Resolution, Error>
  {
    if r.Success? && r.value.Build? then Success(Build(r.value.config.(timeout := None))) else r
  }

  /** The class body declares a gateway object. */
  predicate DeclaresGatewayObject(l: Layer)
  {
    l.gateway.Declared? && l.gateway.value.Some? && l.gateway.value.value.InstanceRef?
  }

  /**
   * A subclass whose body declares nothing resolves like its parent, except
   * that the parent's timeout is not inherited: only the call's reaches it.
   * This needs the parent not to declare a gateway object, which only the
   * class's own body can short-circuit.
   */
  lemma EmptySubclassInherits(call: Layer, chain: seq<Layer>)
    requires |chain| > 0 ==> !DeclaresGatewayObject(chain[0])
    ensures WithoutTimeout(Resolve(call, [EmptyLayer] + chain)) == WithoutTimeout(Resolve(call, chain))
    ensures var r := Resolve(call, [EmptyLayer] + chain);
            r.Success? && r.value.Build? ==>
              r.value.config.timeout == if call.timeout.Declared? then call.timeout.value else None
  {
    var sub := [EmptyLayer] + chain;
    assert sub[0] == EmptyLayer;
    FieldsSkipEmptyLayer(call, chain);
    var early := Kwarg(call, sub, GatewayField, None);
    assert !(early.Some? && early.value.InstanceRef?) ==> !(Kwarg(call, chain, GatewayField, None).Some? &&
                                                           Kwarg(call, chain, GatewayField, None).value.InstanceRef?);
    FinishIgnoresTimeout(early, Kwarg(call, chain, GatewayField, None), ResolveFields(call, chain),
                         Kwarg(call, sub, TimeoutField, None), Kwarg(call, chain, TimeoutField, None));
  }

  /** Two early-return candidates of the same kind and two timeouts: the checks come out the same but for the timeout. */
  lemma FinishIgnoresTimeout(e1: Option<Ref<Default.RequestGateway>>, e2: Option<Ref<Default.RequestGateway>>,
                             fs: Fields, t1: Option<int>, t2: Option<int>)
    requires (e1.Some? && e1.value.InstanceRef?) == (e2.Some? && e2.value.InstanceRef?)
    requires e1.Some? && e1.value.InstanceRef? ==> e1 == e2
    ensures WithoutTimeout(Finish(e1, fs, t1)) == WithoutTimeout(Finish(e2, fs, t2))
    ensures Finish(e1, fs, t1).Success? && Finish(e1, fs, t1).value.Build? ==> Finish(e1, fs, t1).value.config.timeout == t1
  {
  }

  /** Every field resolves the same through a class body that declares nothing. */
  lemma FieldsSkipEmptyLayer(call: Layer, chain: seq<Layer>)
    ensures ResolveFields(call, [EmptyLayer] + chain) == ResolveFields(call, chain)
  {
    InheritSkipsEmptyLayer(call, chain, UrlField, None, StrTruthy);
    InheritSkipsEmptyLayer(call, chain, BaseUrlField, Some(""), StrTruthy);
    InheritSkipsEmptyLayer(call, chain, MethodField, None, ObjTruthy);
    InheritSkipsEmptyLayer(call, chain, RequestModelField, None, ObjTruthy);
    InheritSkipsEmptyLayer(call, chain, ResponseModelField, None, ObjTruthy);
    InheritSkipsEmptyLayer(call, chain, RequestAdapterField, None, ObjTruthy);
    InheritSkipsEmptyLayer(call, chain, ResponseAdapterField, None, ObjTruthy);
    InheritSkipsEmptyLayer(call, chain, SessionField, None, ObjTruthy);
    InheritSkipsEmptyLayer(call, chain, AuthorizerField, None, ObjTruthy);
    InheritSkipsEmptyLayer(call, chain, GatewayField, None, ObjTruthy);
  }

  /**
   * A gateway object declared by a parent class is not returned as is: a
   * subclass resolves to building with it, while the parent itself returns it.
   */
  lemma InheritedGatewayObjectNotShortCircuited(call: Layer, parent: Layer, g: Default.RequestGateway)
    requires call.gateway.Undeclared?
    requires parent.gateway == Declared(Some(InstanceRef(g)))
    ensures Resolve(call, [parent]) == Success(Existing(g))
    ensures var r := Resolve(call, [EmptyLayer, parent]);
            r.Failure? || (r.value.Build? && r.value.config.gateway == InstanceRef(g))
  {
    assert [EmptyLayer, parent][1..] == [parent];
  }

  /** A gateway object passed to the call, or declared by the class's own body, is returned before anything is checked. */
  lemma GatewayObjectReturnedAsIs(call: Layer, chain: seq<Layer>, g: Default.RequestGateway)
    requires call.gateway == Declared(Some(InstanceRef(g))) ||
             (call.gateway.Undeclared? && |chain| > 0 && chain[0].gateway == Declared(Some(InstanceRef(g))))
    ensures Resolve(call, chain) == Success(Existing(g))
  {
  }

  /**
   * With a specification class fixing method `m` (the GET and POST ones
   * among them) and nothing else choosing a method, the method is `m`:
   * "method must be provided" is never raised.
   */
  lemma MethodSpecFixes(call: Layer, user: seq<Layer>, m: HttpMethod)
    requires call.httpMethod.Undeclared? || call.httpMethod.value.None?
    requires forall i :: 0 <= i < |user| ==> user[i].httpMethod.Undeclared?
    ensures var r := Resolve(call, user + [MethodSpecLayer(m), EmptyLayer]);
            (r.Failure? ==> r.error != MethodMissing) &&
            (r.Success? && r.value.Build? ==> r.value.config.httpMethod == m)
  {
    var chain := user + [MethodSpecLayer(m), EmptyLayer];
    assert chain == user + ([MethodSpecLayer(m)] + [EmptyLayer]);
    forall i | 0 <= i < |user|
      ensures MethodField(user[i]).Undeclared?
    {
    }
    GetAttrSkipsUndeclared(user, [MethodSpecLayer(m)] + [EmptyLayer], MethodField, None);
    assert GetAttr(chain, MethodField, None) == Some(m);
  }

  /**
   * A class body that sets `method = None` is not "no method chosen": it
   * hides the method of the specification class above it, and "method must
   * be provided" is raised.
   */
  lemma NoneMethodShadowsSpecMethod(url: string, m: HttpMethod)
    requires HasSchemeAndNetloc(url)
    ensures Resolve(UrlCall(url), [EmptyLayer.(httpMethod := Declared(None)), MethodSpecLayer(m), EmptyLayer]) ==
            Failure(MethodMissing)
  {
    var call, chain := UrlCall(url), [EmptyLayer.(httpMethod := Declared(None)), MethodSpecLayer(m), EmptyLayer];
    assert Kwarg(call, chain, GatewayField, None) == None;
    assert ResolveFields(call, chain).url == Some(url);
    assert ResolveFields(call, chain).httpMethod == None;
  }

  /**
   * With only a URL and a method given, everything else takes the system
   * defaults: the default adapters without models, the default session
   * class, no authorizer and the default gateway class.
   */
  lemma DefaultsApply(url: string, m: HttpMethod, chain: seq<Layer>)
    requires HasSchemeAndNetloc(url)
    requires forall i :: 0 <= i < |chain| ==> chain[i] == EmptyLayer
    ensures Resolve(EmptyLayer.(url := Declared(Some(url)), httpMethod := Declared(Some(m))), chain) ==
            Success(Build(Config(url, m, None, None, None,
                                 Default.DefaultRequestAdapter(), Default.DefaultResponseAdapter(),
                                 DefaultSessionClass, None, ClassRef(DefaultGatewayClass))))
  {
  }

  /** An adapter class is built with the resolved model; an adapter object is used as it is and the model ignored. */
  lemma AdapterReference(early: Option<Ref<Default.RequestGateway>>, fs: Fields, timeout: Option<int>)
    requires Finish(early, fs, timeout).Success? && Finish(early, fs, timeout).value.Build?
    ensures var cfg := Finish(early, fs, timeout).value.config;
            && cfg.requestModel == fs.requestModel && cfg.responseModel == fs.responseModel
            && (forall c :: fs.requestAdapter == ClassRef(c) ==> cfg.requestAdapter == Default.RequestAdapter(c, fs.requestModel))
            && (forall a :: fs.requestAdapter == InstanceRef(a) ==> cfg.requestAdapter == a)
            && (forall c :: fs.responseAdapter == ClassRef(c) ==> cfg.responseAdapter == Default.ResponseAdapter(c, fs.responseModel))
            && (forall a :: fs.responseAdapter == InstanceRef(a) ==> cfg.responseAdapter == a)
  {
  }

  /**
   * Without a non-empty URL from the call or any class, "url must be
   * provided" is raised, whatever else is declared or missing.
   */
  lemma UrlCheckedFirst(call: Layer, chain: seq<Layer>)
    requires !DeclaresGatewayObject(call) && (call.gateway.Undeclared? ==> |chain| == 0 || !DeclaresGatewayObject(chain[0]))
    requires call.url.Undeclared? || !StrTruthy(call.url.value)
    requires forall v :: v in DeclaredValues(chain, UrlField) ==> !StrTruthy(v)
    ensures Resolve(call, chain) == Failure(UrlMissing)
  {
    NoUrlResolved(call, chain);
    FinishWithoutUrl(Kwarg(call, chain, GatewayField, None), ResolveFields(call, chain), Kwarg(call, chain, TimeoutField, None));
  }

  /** When neither the call nor any class gives a non-empty URL, the URL resolves to a falsy value. */
  lemma NoUrlResolved(call: Layer, chain: seq<Layer>)
    requires call.url.Undeclared? || !StrTruthy(call.url.value)
    requires forall v :: v in DeclaredValues(chain, UrlField) ==> !StrTruthy(v)
    ensures !StrTruthy(Inherit(call, chain, UrlField, None, StrTruthy))
  {
    var ds := DeclaredValues(chain, UrlField);
    GetAttrIsFirstDeclared(chain, UrlField, None);
    if ds != [] {
      assert ds[0] in ds;
    }
    if call.url.Undeclared? && |chain| > 0 && chain[0].url.Declared? {
      assert ds[0] == chain[0].url.value;
    }
  }

  /** Without a gateway object to return and without a URL, "url must be provided" is raised. */
  lemma FinishWithoutUrl(early: Option<Ref<Default.RequestGateway>>, fs: Fields, timeout: Option<int>)
    requires !(early.Some? && early.value.InstanceRef?) && !StrTruthy(fs.url)
    ensures Finish(early, fs, timeout) == Failure(UrlMissing)
  {
  }

  /**
   * "method must be provided" is raised exactly when there is no gateway
   * object to return, the URL is present and joins with the base URL, and
   * no method resolves: a URL error always takes precedence.
   */
  lemma MethodCheckedAfterUrl(early: Option<Ref<Default.RequestGateway>>, fs: Fields, timeout: Option<int>)
    ensures Finish(early, fs, timeout) == Failure(MethodMissing) <==>
            && !(early.Some? && early.value.InstanceRef?)
            && StrTruthy(fs.url) && GetUrl(fs.baseUrl, fs.url.value).Success?
            && fs.httpMethod.None?
  {
    if StrTruthy(fs.url) && GetUrl(fs.baseUrl, fs.url.value).Failure? {
      assert GetUrl(fs.baseUrl, fs.url.value).error.ValueError?;
    }
  }

  /** "https://test.com" has a scheme and a network location. */
  lemma TestHostIsAbsolute()
    ensures HasSchemeAndNetloc("https://test.com")
  {
    var u := "https://test.com";
    assert u == "https" + ":" + "//test.com";
    SchemeAndHost("https", "//test.com");
  }

  /** "/test" has neither a scheme nor a network location. */
  lemma TestPathIsRelative()
    ensures !HasSchemeAndNetloc("/test")
  {
    NoColonIsRelative("/test");
  }

  /** The call's URL keyword with nothing else passed. */
  function UrlCall(url: string): Layer
  {
    EmptyLayer.(url := Declared(Some(url)))
  }

  /** A class body declaring GET and the base URL `base`. */
  function BaseUrlSpecLayer(base: string): Layer
  {
    MethodSpecLayer(GET).(baseUrl := Declared(Some(base)))
  }

  /** That class, called with a relative URL, appends it to the base URL. */
  lemma BaseUrlJoined(base: string, path: string)
    requires HasSchemeAndNetloc(base) && !HasSchemeAndNetloc(path) && path != ""
    ensures var r := Resolve(UrlCall(path), [BaseUrlSpecLayer(base), EmptyLayer]);
            r.Success? && r.value.Build? && r.value.config.url == base + path
  {
    var call, chain := UrlCall(path), [BaseUrlSpecLayer(base), EmptyLayer];
    BaseUrlSpecFields(base, path);
    FinishJoins(Kwarg(call, chain, GatewayField, None), ResolveFields(call, chain),
                Kwarg(call, chain, TimeoutField, None), base, path);
  }

  /** The URL, base URL and method that class resolves to when called with `path`. */
  lemma BaseUrlSpecFields(base: string, path: string)
    requires path != ""
    ensures var call, chain := UrlCall(path), [BaseUrlSpecLayer(base), EmptyLayer];
            && Kwarg(call, chain, GatewayField, None) == None
            && Inherit(call, chain, UrlField, None, StrTruthy) == Some(path)
            && Inherit(call, chain, BaseUrlField, Some(""), StrTruthy) == Some(base)
            && Inherit(call, chain, MethodField, None, ObjTruthy) == Some(GET)
  {
  }

  /** A relative URL after an absolute base URL, with a method, is built on their concatenation. */
  lemma FinishJoins(early: Option<Ref<Default.RequestGateway>>, fs: Fields, timeout: Option<int>, base: string, path: string)
    requires !(early.Some? && early.value.InstanceRef?)
    requires HasSchemeAndNetloc(base) && !HasSchemeAndNetloc(path) && path != ""
    requires fs.url == Some(path) && fs.baseUrl == Some(base) && fs.httpMethod.Some?
    ensures var r := Finish(early, fs, timeout);
            r.Success? && r.value.Build? && r.value.config.url == base + path
  {
  }

  /** A subclass that declares nothing builds exactly when its parent does, with the same URL. */
  lemma EmptySubclassBuildsSameUrl(call: Layer, chain: seq<Layer>)
    requires |chain| > 0 ==> !DeclaresGatewayObject(chain[0])
    ensures var r1, r2 := Resolve(call, [EmptyLayer] + chain), Resolve(call, chain);
            && (r1.Success? && r1.value.Build?) == (r2.Success? && r2.value.Build?)
            && (r1.Success? && r1.value.Build? ==> r1.value.config.url == r2.value.config.url)
  {
    EmptySubclassInherits(call, chain);
    SameBuildUrl(Resolve(call, [EmptyLayer] + chain), Resolve(call, chain));
  }

  /** Resolutions equal but for the timeout build with the same URL. */
  lemma SameBuildUrl(r1: Result<Resolution, Error>, r2: Result<Resolution, Error>)
    requires WithoutTimeout(r1) == WithoutTimeout(r2)
    ensures (r1.Success? && r1.value.Build?) == (r2.Success? && r2.value.Build?)
    ensures r1.Success? && r1.value.Build? ==> r1.value.config.url == r2.value.config.url
  {
  }

  /** Without a base URL, the relative URL "/test" raises ValueError. */
  lemma RelativeUrlWithoutBase()
    ensures var r := Resolve(UrlCall("/test"), [GetSpecLayer, EmptyLayer]);
            r.Failure? && r.error.ValueError?
  {
    var call, chain := UrlCall("/test"), [GetSpecLayer, EmptyLayer];
    TestPathIsRelative();
    assert Kwarg(call, chain, GatewayField, None) == None;
    assert ResolveFields(call, chain).url == Some("/test");
    assert ResolveFields(call, chain).baseUrl == None;
  }

  /** The GET and POST specification classes, called with only a URL, build with their own method. */
  lemma MethodSpecExamples()
    ensures var r := Resolve(UrlCall("https://test.com"), [GetSpecLayer, EmptyLayer]);
            r.Success? && r.value.Build? && r.value.config.httpMethod == GET
    ensures var r := Resolve(UrlCall("https://test.com"), [PostSpecLayer, EmptyLayer]);
            r.Success? && r.value.Build? && r.value.config.httpMethod == POST
  {
    TestHostIsAbsolute();
  }

  /** How a call to `_init_fn` ends. */
  datatype InitOutcome = Initialized | ReturnedExisting(gateway: Default.RequestGateway) | Raised(error: Error)

  /** The keyword parameters of the default gateway's constructor as written: there is no `timeout` and no `**kwargs`. */
  const GatewayParametersAsWritten: set<string> :=
    {"session", "url", "method", "headers", "request_adapter", "response_adapter"}

  /**
   * The keyword parameters of the gateway's constructor in this model
   * (`Default.RequestGateway`'s constructor), which also accepts the timeout.
   */
  const GatewayParameters: set<string> := GatewayParametersAsWritten + {"timeout"}

  /** The keyword parameters of a gateway object's `__call__`. */
  const GatewayObjectCallParameters: set<string> := {"params"}

  /** The keywords `_init_fn` passes when it calls the gateway class. */
  const GatewayKeywords: set<string> :=
    {"session", "url", "method", "timeout", "request_adapter", "response_adapter"}

  /** Python's binding of keyword arguments to a callee without `**kwargs`: an unknown keyword raises TypeError. */
  function BindKeywords(passed: set<string>, parameters: set<string>): (r: Result<(), Error>)
    ensures r.Success? <==> passed <= parameters
    ensures r.Failure? ==> r.error.TypeError?
  {
    if passed <= parameters then Success(()) else Failure(TypeError("got an unexpected keyword argument"))
  }

  /**
   * Whether `gateway(session=..., url=..., ...)` binds its keywords.
   * `parameters` gives the keyword parameters of each gateway class by
   * name. A gateway object in that position is called through its own
   * `__call__`, which takes only `params`.
   */
  function GatewayCall(cfg: Config, parameters: string -> set<string>): (r: Result<(), Error>)
    ensures r.Success? <==> cfg.gateway.ClassRef? && GatewayKeywords <= parameters(cfg.gateway.name)
    ensures r.Failure? ==> r.error.TypeError?
  {
    match cfg.gateway
    case ClassRef(name) => BindKeywords(GatewayKeywords, parameters(name))
    case InstanceRef(_) =>
      assert "session" in GatewayKeywords && "session" !in GatewayObjectCallParameters;
      BindKeywords(GatewayKeywords, GatewayObjectCallParameters)
  }

  /** As written, calling the default gateway class with the keywords `_init_fn` passes raises TypeError. */
  lemma GatewayCallAsWrittenRaises(cfg: Config, parameters: string -> set<string>)
    requires cfg.gateway == ClassRef(DefaultGatewayClass)
    requires parameters(DefaultGatewayClass) == GatewayParametersAsWritten
    ensures GatewayCall(cfg, parameters).Failure? && GatewayCall(cfg, parameters).error.TypeError?
  {
    assert "timeout" in GatewayKeywords && "timeout" !in GatewayParametersAsWritten;
  }

  /** With the timeout accepted, every keyword `_init_fn` passes binds to the default gateway class. */
  lemma GatewayCallBinds(cfg: Config, parameters: string -> set<string>)
    requires cfg.gateway == ClassRef(DefaultGatewayClass)
    requires parameters(DefaultGatewayClass) == GatewayParameters
    ensures GatewayCall(cfg, parameters) == Success(())
  {
  }

  /** With no gateway from the call or any class, a successful resolution builds with the default gateway class. */
  lemma UndeclaredGatewayIsDefault(call: Layer, chain: seq<Layer>)
    requires call.gateway.Undeclared? || call.gateway.value.None?
    requires forall i :: 0 <= i < |chain| ==> chain[i].gateway.Undeclared? || chain[i].gateway.value.None?
    ensures var r := Resolve(call, chain);
            r.Success? ==> r.value.Build? && r.value.config.gateway == ClassRef(DefaultGatewayClass)
  {
    forall i | 0 <= i < |chain|
      ensures GatewayField(chain[i]).Undeclared? || GatewayField(chain[i]).value.None?
    {
    }
    GetAttrOfNones(chain, GatewayField);
    assert Kwarg(call, chain, GatewayField, None) == None;
  }

  /** When every class leaves a field undeclared or declares it `None`, `getattr` yields `None`. */
  lemma {:induction false} GetAttrOfNones<U>(chain: seq<Layer>, f: Layer -> Decl<Option<U>>)
    requires forall i :: 0 <= i < |chain| ==> f(chain[i]).Undeclared? || f(chain[i]).value.None?
    ensures GetAttr(chain, f, None) == None
  {
    if |chain| > 0 && f(chain[0]).Undeclared? {
      assert forall i :: 0 <= i < |chain[1..]| ==> chain[1..][i] == chain[i + 1];
      GetAttrOfNones(chain[1..], f);
    }
  }

  /**
   * As written, every specification that declares no gateway and passes
   * the URL and method checks fails when it calls the default gateway
   * class.
   */
  lemma DefaultGatewayBuildRaises(call: Layer, chain: seq<Layer>, parameters: string -> set<string>)
    requires call.gateway.Undeclared? || call.gateway.value.None?
    requires forall i :: 0 <= i < |chain| ==> chain[i].gateway.Undeclared? || chain[i].gateway.value.None?
    requires parameters(DefaultGatewayClass) == GatewayParametersAsWritten
    ensures var r := Resolve(call, chain);
            r.Success? ==> r.value.Build? && GatewayCall(r.value.config, parameters).Failure? &&
                           GatewayCall(r.value.config, parameters).error.TypeError?
  {
    UndeclaredGatewayIsDefault(call, chain);
    var r := Resolve(call, chain);
    if r.Success? {
      GatewayCallAsWrittenRaises(r.value.config, parameters);
    }
  }

  /** A gateway specification; `gateway` is set once `InitFn` succeeds. */
  class GatewaySpec {
    var gateway: Default.RequestGateway?

    constructor()
      ensures gateway == null
    {
      gateway := null;
    }

    /**
     * The end of `_init_fn` once a configuration is resolved: acquire a
     * session from the application context (or a new one when there is
     * none), then call the gateway class with the resolved fields. A call
     * that does not bind raises TypeError and leaves `gateway` unset; the
     * session is acquired all the same.
     */
    method Bind(cfg: Config, context: Session.Context?, parameters: string -> set<string>) returns (outcome: InitOutcome)
      modifies this`gateway, if context == null then {} else {context}
      ensures GatewayCall(cfg, parameters).Failure? ==>
                outcome == Raised(GatewayCall(cfg, parameters).error) && gateway == old(gateway)
      ensures GatewayCall(cfg, parameters).Success? ==>
                && outcome == Initialized && gateway != null && fresh(gateway)
                && gateway.cls == cfg.gateway.name && gateway.url == cfg.url
                && gateway.httpMethod == cfg.httpMethod && gateway.headers == None && gateway.timeout == cfg.timeout
                && gateway.requestAdapter == cfg.requestAdapter && gateway.responseAdapter == cfg.responseAdapter
      ensures var key := Session.ContextKey(cfg.sessionClass, "");
              context != null ==>
                && key in context.entries
                && (key in old(context.entries) ==> context.entries == old(context.entries))
                && (key !in old(context.entries) ==> context.entries == old(context.entries)[key := context.entries[key]])
      ensures GatewayCall(cfg, parameters).Success? ==> var key := Session.ContextKey(cfg.sessionClass, "");
                && (context == null || key !in old(context.entries) ==>
                      && fresh(gateway.session) && gateway.session.cls == cfg.sessionClass
                      && gateway.session.headers == Session.InitialHeaders()
                      && gateway.session.auth == Session.AuthFor(cfg.authorizer))
                && (context != null && key in old(context.entries) ==> gateway.session == old(context.entries[key]))
                && (context != null ==> context.entries[key] == gateway.session)
    {
      var session := Session.FromAppContextOrNew(cfg.sessionClass, context, cfg.authorizer);
      var bound := GatewayCall(cfg, parameters);
      if bound.Failure? {
        outcome := Raised(bound.error);
      } else {
        gateway := new Default.RequestGateway(cfg.gateway.name, session, cfg.url, cfg.httpMethod, None, cfg.timeout,
                                              Some(cfg.requestAdapter), Some(cfg.responseAdapter));
        outcome := Initialized;
      }
    }

    /**
     * `_init_fn` on this specification: an error or a built gateway passed
     * in ends it with nothing changed; otherwise the resolved configuration
     * is bound as `Bind` describes. As written (the default gateway class
     * without a `timeout` parameter), every build with that class raises.
     */
    method InitFn(call: Layer, chain: seq<Layer>, context: Session.Context?, parameters: string -> set<string>)
      returns (outcome: InitOutcome)
      modifies this`gateway, if context == null then {} else {context}
      ensures Resolve(call, chain).Failure? ==>
                && outcome == Raised(Resolve(call, chain).error) && gateway == old(gateway)
                && (context != null ==> context.entries == old(context.entries))
      ensures Resolve(call, chain).Success? && Resolve(call, chain).value.Existing? ==>
                && outcome == ReturnedExisting(Resolve(call, chain).value.gateway) && gateway == old(gateway)
                && (context != null ==> context.entries == old(context.entries))
      ensures Resolve(call, chain).Success? && Resolve(call, chain).value.Build? ==>
                var cfg := Resolve(call, chain).value.config;
                && (GatewayCall(cfg, parameters).Failure? ==>
                      outcome == Raised(GatewayCall(cfg, parameters).error) && gateway == old(gateway))
                && (GatewayCall(cfg, parameters).Success? ==>
                      && outcome == Initialized && gateway != null && fresh(gateway)
                      && gateway.cls == cfg.gateway.name && gateway.url == cfg.url
                      && gateway.httpMethod == cfg.httpMethod && gateway.headers == None && gateway.timeout == cfg.timeout
                      && gateway.requestAdapter == cfg.requestAdapter && gateway.responseAdapter == cfg.responseAdapter
                      && (context == null ==>
                            && fresh(gateway.session) && gateway.session.cls == cfg.sessionClass
                            && gateway.session.headers == Session.InitialHeaders()
                            && gateway.session.auth == Session.AuthFor(cfg.authorizer))
                      && (context != null ==>
                            && Session.ContextKey(cfg.sessionClass, "") in context.entries
                            && context.entries[Session.ContextKey(cfg.sessionClass, "")] == gateway.session))
      ensures Resolve(call, chain).Success? && Resolve(call, chain).value.Build? &&
              Resolve(call, chain).value.config.gateway == ClassRef(DefaultGatewayClass) &&
              parameters(DefaultGatewayClass) == GatewayParametersAsWritten ==>
                outcome.Raised? && outcome.error.TypeError? && gateway == old(gateway)
    {
      var resolved := Resolve(call, chain);
      match resolved {
        case Failure(e) =>
          outcome := Raised(e);
        case Success(Existing(g)) =>
          outcome := ReturnedExisting(g);
        case Success(Build(cfg)) =>
          if cfg.gateway == ClassRef(DefaultGatewayClass) && parameters(DefaultGatewayClass) == GatewayParametersAsWritten {
            GatewayCallAsWrittenRaises(cfg, parameters);
          }
          outcome := Bind(cfg, context, parameters);
      }
    }
  }
}
