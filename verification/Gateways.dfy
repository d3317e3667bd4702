/** The gateway under construction, its listeners, and the route context that refers to them. */
module Gateways {
  import opened Text
  import opened Ordering
  import opened Annotations
  import opened Resources

  /** The two naming functions of the ingress2gateway library; their bodies are not part of this model. */
  datatype Naming = Naming(nameFromHost: string -> string, routeName: (string, string) -> string)

  datatype SecretRef = SecretRef(group: Option<string>, kind: string, name: string, namespace: Option<string>)

  datatype Listener = Listener(
    name: string, port: int, protocol: string, hostname: Option<string>, certificateRefs: seq<SecretRef>)

  datatype ListenerKey = ListenerKey(hostname: string, port: int)

  /** An HTTPS listener with the set of secrets its certificate references stand for. */
  datatype ListenerState = ListenerState(listener: Listener, secrets: set<NamespacedName>)

  datatype GatewayState = GatewayState(
    name: NamespacedName,
    httpListener: Option<Listener>,
    httpsListeners: map<ListenerKey, ListenerState>,
    hasHTTPSRedirect: bool)

  datatype World = World(gateway: GatewayState, graph: Graph)

  const HTTP_LISTENER_NAME := "http"
  const HTTP_LISTENER := Listener(HTTP_LISTENER_NAME, 80, "HTTP", None, [])

  function HTTPSKey(hostname: string): ListenerKey {
    ListenerKey(hostname, 443)
  }

  function HTTPSListenerName(naming: Naming, hostname: string): string {
    "https-" + naming.nameFromHost(hostname)
  }

  function NewListener(
    naming: Naming, gatewayNamespace: string, hostname: string, secret: NamespacedName): ListenerState {
    var namespace := if secret.namespace != gatewayNamespace then Some(secret.namespace) else None;
    ListenerState(
      Listener(
        HTTPSListenerName(naming, hostname), 443, "HTTPS", Some(hostname),
        [SecretRef(Some(""), KIND_SECRET, secret.name, namespace)]),
      {secret})
  }

  function WithSecret(l: ListenerState, secret: NamespacedName): ListenerState {
    if secret in l.secrets then l
    else
      var ref := SecretRef(None, KIND_SECRET, secret.name, Some(secret.namespace));
      ListenerState(l.listener.(certificateRefs := l.listener.certificateRefs + [ref]), l.secrets + {secret})
  }

  /** The listener of a host once a secret is asked of it. */
  function ListenerFor(naming: Naming, g: GatewayState, hostname: string, secret: NamespacedName): ListenerState {
    if HTTPSKey(hostname) in g.httpsListeners then WithSecret(g.httpsListeners[HTTPSKey(hostname)], secret)
    else NewListener(naming, g.name.namespace, hostname, secret)
  }

  function EnsureHTTPS(naming: Naming, w: World, hostname: string, secret: NamespacedName): World {
    var g := w.gateway;
    World(
      g.(httpsListeners := g.httpsListeners[HTTPSKey(hostname) := ListenerFor(naming, g, hostname, secret)]),
      if secret.namespace != g.name.namespace then WithGrant(w.graph, g.name.namespace, secret.namespace) else w.graph)
  }

  function EnsureHTTP(g: GatewayState): GatewayState {
    if g.httpListener.Some? then g else g.(httpListener := Some(HTTP_LISTENER))
  }

  /** `HTTPSListener`: the listener object is shared by every copy, so its list of references grows in place. */
  class HTTPSListener {
    const name: string
    const port: int
    const hostname: string
    var certificateRefs: seq<SecretRef>
    var secrets: set<NamespacedName>

    function View(): ListenerState
      reads this
    {
      ListenerState(Listener(name, port, "HTTPS", Some(hostname), certificateRefs), secrets)
    }

    constructor (naming: Naming, gatewayNamespace: string, hostname: string, secret: NamespacedName)
      ensures View() == NewListener(naming, gatewayNamespace, hostname, secret)
      ensures this.hostname == hostname && this.port == 443
    {
      this.name, this.port, this.hostname := "https-" + naming.nameFromHost(hostname), 443, hostname;
      var namespace := if secret.namespace != gatewayNamespace then Some(secret.namespace) else None;
      certificateRefs := [SecretRef(Some(""), KIND_SECRET, secret.name, namespace)];
      secrets := {secret};
    }

    method AddSecret(secret: NamespacedName)
      modifies this
      ensures View() == WithSecret(old(View()), secret)
    {
      if secret in secrets {
        return;
      }
      secrets := secrets + {secret};
      certificateRefs := certificateRefs + [SecretRef(None, KIND_SECRET, secret.name, Some(secret.namespace))];
    }
  }

  /** `GatewayContext`. */
  class GatewayContext {
    const name: NamespacedName
    const annotations: map<string, string>
    var httpListener: Option<Listener>
    var httpsListeners: map<ListenerKey, HTTPSListener>
    var hasHTTPSRedirect: bool
    var issues: seq<Issue>

    /** Each listener sits under its own host and port, so no listener sits under two keys. */
    ghost predicate Valid()
      reads this
    {
      forall k | k in httpsListeners :: ListenerKey(httpsListeners[k].hostname, httpsListeners[k].port) == k
    }

    function View(): GatewayState
      reads this, httpsListeners.Values
    {
      GatewayState(name, httpListener, map k | k in httpsListeners :: httpsListeners[k].View(), hasHTTPSRedirect)
    }

    constructor (name: NamespacedName, annotations: map<string, string>)
      ensures Valid() && httpsListeners == map[] && issues == [] && this.annotations == annotations
      ensures View() == GatewayState(name, None, map[], false)
    {
      this.name, this.annotations := name, annotations;
      httpListener, httpsListeners, hasHTTPSRedirect, issues := None, map[], false, [];
    }

    /** Adding a secret to one listener changes no other, since listeners are not shared between keys. */
    method AddSecretTo(key: ListenerKey, secret: NamespacedName)
      requires Valid() && key in httpsListeners
      modifies httpsListeners[key]
      ensures Valid()
      ensures var l := old(View()).httpsListeners;
              View() == old(View()).(httpsListeners := l[key := WithSecret(l[key], secret)])
    {
      hide WithSecret;
      var listener := httpsListeners[key];
      assert forall k | k in httpsListeners && k != key :: httpsListeners[k] != listener;
      listener.AddSecret(secret);
      assert View().httpsListeners
          == old(View()).httpsListeners[key := WithSecret(old(View()).httpsListeners[key], secret)];
    }

    method EnsureHTTPSListener(naming: Naming, graph: AGCResourceGraph, hostname: string, secret: NamespacedName)
      returns (sectionName: string)
      requires Valid() && graph.Valid()
      modifies this`httpsListeners, httpsListeners.Values, graph`referenceGrants
      ensures Valid() && graph.Valid() && fresh(httpsListeners.Values - old(httpsListeners.Values))
      ensures World(View(), graph.View()) == EnsureHTTPS(naming, old(World(View(), graph.View())), hostname, secret)
      ensures HTTPSKey(hostname) in httpsListeners && sectionName == httpsListeners[HTTPSKey(hostname)].name
    {
      hide WithGrant;
      hide WithSecret;
      hide NewListener;
      hide HTTPSListenerName;
      if secret.namespace != name.namespace {
        graph.GetOrCreateReferenceGrantForGWSecret(name.namespace, secret.namespace);
      }
      var key := HTTPSKey(hostname);
      if key in httpsListeners {
        AddSecretTo(key, secret);
        return httpsListeners[key].name;
      }
      AddListener(naming, hostname, secret);
      sectionName := httpsListeners[key].name;
    }

    method AddListener(naming: Naming, hostname: string, secret: NamespacedName)
      requires Valid()
      modifies this`httpsListeners
      ensures Valid() && fresh(httpsListeners.Values - old(httpsListeners.Values))
      ensures HTTPSKey(hostname) in httpsListeners
      ensures View() == old(View()).(httpsListeners :=
                old(View()).httpsListeners[HTTPSKey(hostname) := NewListener(naming, name.namespace, hostname, secret)])
    {
      hide NewListener;
      var listener := new HTTPSListener(naming, name.namespace, hostname, secret);
      httpsListeners := httpsListeners[HTTPSKey(hostname) := listener];
      assert View().httpsListeners == old(View()).httpsListeners[HTTPSKey(hostname) := listener.View()];
    }

    method EnsureHTTPListener() returns (sectionName: string)
      modifies this`httpListener
      ensures httpListener == Some(old(httpListener).GetOr(HTTP_LISTENER))
      ensures sectionName == httpListener.value.name
    {
      if httpListener.Some? {
        return httpListener.value.name;
      }
      httpListener := Some(Listener(HTTP_LISTENER_NAME, 80, "HTTP", None, []));
      sectionName := httpListener.value.name;
    }

    /** `build`: the listeners of the output gateway. */
    method Build() returns (listeners: seq<Listener>)
      requires Valid()
      ensures forall order | Lists(order, View().httpsListeners.Keys) :: listeners == Built(View(), order)
    {
      hide KeyLess;
      hide Sort;
      hide Lists;
      hide StrictlySorted;
      hide StrictOrder;
      hide Built;
      hide ListenersOf;
      hide HTTPSListener.View;
      NoListeners(View());
      listeners := if httpListener.Some? then [httpListener.value] else [];
      ghost var head, g := listeners, View();
      assert g.httpsListeners.Keys == httpsListeners.Keys;
      KeyLessIsStrictOrder();
      var keys := SortedKeys(httpsListeners.Keys, KeyLess);
      ListedIn(keys, httpsListeners.Keys);
      for i := 0 to |keys|
        invariant listeners == head + ListenersOf(g, keys[..i])
      {
        assert keys[i] in keys;
        listeners := listeners + [httpsListeners[keys[i]].View().listener];
        ListenersSnoc(g, keys, i);
      }
      assert keys[..|keys|] == keys;
      BuiltFromKeys(g, keys);
    }
  }

  lemma NoListeners(g: GatewayState)
    ensures ListenersOf(g, []) == []
  {
  }

  lemma ListenersSnoc(g: GatewayState, keys: seq<ListenerKey>, i: nat)
    requires i < |keys| && forall k | k in keys :: k in g.httpsListeners
    ensures ListenersOf(g, keys[..i + 1]) == ListenersOf(g, keys[..i]) + [g.httpsListeners[keys[i]].listener]
  {
  }

  lemma BuiltFromKeys(g: GatewayState, keys: seq<ListenerKey>)
    requires Lists(keys, g.httpsListeners.Keys)
    requires forall order | Lists(order, g.httpsListeners.Keys) :: keys == Sort(order, KeyLess)
    ensures forall order | Lists(order, g.httpsListeners.Keys) ::
              Built(g, order) == (if g.httpListener.Some? then [g.httpListener.value] else []) + ListenersOf(g, keys)
  {
    hide KeyLess;
    hide Sort;
  }

  // ---------- The built listeners ----------

  /** `compareFn` of `build`: by port, then by host. */
  predicate KeyLess(a: ListenerKey, b: ListenerKey) {
    if a.port != b.port then a.port < b.port else StringLess(a.hostname, b.hostname)
  }

  lemma KeyLessIsStrictOrder()
    ensures StrictOrder(KeyLess)
  {
    hide StringLess;
    StringLessIsStrictOrder();
    forall a, b, c
      ensures !KeyLess(a, a)
      ensures KeyLess(a, b) || KeyLess(b, a) || a == b
      ensures KeyLess(a, b) && KeyLess(b, c) ==> KeyLess(a, c)
    {
      assert !StringLess(a.hostname, a.hostname);
    }
  }

  function ListenersOf(g: GatewayState, keys: seq<ListenerKey>): (r: seq<Listener>)
    requires forall k | k in keys :: k in g.httpsListeners
    ensures |r| == |keys|
    ensures forall i | 0 <= i < |keys| :: r[i] == g.httpsListeners[keys[i]].listener
  {
    seq(|keys|, i requires 0 <= i < |keys| => g.httpsListeners[keys[i]].listener)
  }

  /** The output listeners, when the listener map is ranged over in `order`. */
  ghost function Built(g: GatewayState, order: seq<ListenerKey>): seq<Listener>
    requires Lists(order, g.httpsListeners.Keys)
  {
    KeyLessIsStrictOrder();
    SortOfListing(order, order, g.httpsListeners.Keys, KeyLess);
    (if g.httpListener.Some? then [g.httpListener.value] else []) + ListenersOf(g, Sort(order, KeyLess))
  }

  function ListenerNames(g: GatewayState): set<string> {
    (if g.httpListener.Some? then {g.httpListener.value.name} else {})
    + (set k | k in g.httpsListeners :: g.httpsListeners[k].listener.name)
  }

  /** The output: the optional HTTP listener, then one listener per key by increasing port and host, in no other
      order. */
  lemma BuiltIsCanonical(g: GatewayState, order: seq<ListenerKey>, other: seq<ListenerKey>)
    requires Lists(order, g.httpsListeners.Keys) && Lists(other, g.httpsListeners.Keys)
    ensures Built(g, order) == Built(g, other)
    ensures var keys := Sort(order, KeyLess);
            Lists(keys, g.httpsListeners.Keys) && StrictlySorted(keys, KeyLess)
            && Built(g, order) == (if g.httpListener.Some? then [g.httpListener.value] else []) + ListenersOf(g, keys)
    ensures var keys := Sort(order, KeyLess);
            forall i, j | 0 <= i < j < |keys| ::
              keys[i].port < keys[j].port
              || (keys[i].port == keys[j].port && Before(keys[i].hostname, keys[j].hostname))
  {
    hide Before;
    hide Sort;
    KeyLessIsStrictOrder();
    SortOfListing(order, other, g.httpsListeners.Keys, KeyLess);
    var keys := Sort(order, KeyLess);
    forall i, j | 0 <= i < j < |keys|
      ensures keys[i].port < keys[j].port
              || (keys[i].port == keys[j].port && Before(keys[i].hostname, keys[j].hostname))
    {
      assert KeyLess(keys[i], keys[j]);
      StringLessIff(keys[i].hostname, keys[j].hostname);
    }
  }

  /** The names of the output listeners are exactly the names held by the context. */
  lemma BuiltNames(g: GatewayState, order: seq<ListenerKey>, name: string)
    requires Lists(order, g.httpsListeners.Keys)
    ensures name in ListenerNames(g) <==> exists l :: l in Built(g, order) && l.name == name
  {
    hide Built;
    if l :| l in Built(g, order) && l.name == name {
      BuiltListener(g, order, l);
    }
    if name in ListenerNames(g) {
      var l: Listener :|
        && l.name == name
        && (g.httpListener == Some(l) || exists k :: k in g.httpsListeners && g.httpsListeners[k].listener == l);
      BuiltListener(g, order, l);
    }
  }

  /** The output listeners are exactly the listeners held. */
  lemma BuiltListener(g: GatewayState, order: seq<ListenerKey>, l: Listener)
    requires Lists(order, g.httpsListeners.Keys)
    ensures l in Built(g, order) <==>
            g.httpListener == Some(l) || exists k :: k in g.httpsListeners && g.httpsListeners[k].listener == l
  {
    hide KeyLess;
    hide Sort;
    hide StrictlySorted;
    BuiltIsCanonical(g, order, order);
    var keys := Sort(order, KeyLess);
    var tail := ListenersOf(g, keys);
    if l in tail {
      var i :| 0 <= i < |tail| && tail[i] == l;
      assert keys[i] in g.httpsListeners;
    }
    if k :| k in g.httpsListeners && g.httpsListeners[k].listener == l {
      var i :| 0 <= i < |keys| && keys[i] == k;
      assert tail[i] in Built(g, order);
    }
  }

  // ---------- The route context ----------

  /** The named sections among the parent references. */
  function SectionsOf(refs: seq<ParentReference>): set<string> {
    set r | r in refs && r.sectionName.Some? :: r.sectionName.value
  }

  function HostParentRef(gateway: NamespacedName, sectionName: string): ParentReference {
    ParentReference(Some(GATEWAY_GROUP), Some(KIND_GATEWAY), gateway.name, Some(gateway.namespace), Some(sectionName))
  }

  /** `HTTPRouteContext.EnsureHTTPSListener`; `sections` are the sections named when the context was built. */
  function RouteWithListener(
    naming: Naming, w: World, route: HTTPRoute, sections: set<string>, hostname: string, secret: NamespacedName)
    : (World, HTTPRoute)
  {
    var sectionName := ListenerFor(naming, w.gateway, hostname, secret).listener.name;
    (EnsureHTTPS(naming, w, hostname, secret),
     if sectionName in sections then route
     else route.(parentRefs := route.parentRefs + [HostParentRef(w.gateway.name, sectionName)]))
  }

  /** The HTTPS listeners a route hangs on, when the listener map is ranged over in `order`. */
  function ParentHTTPSListenerNames(g: GatewayState, route: HTTPRoute, order: seq<ListenerKey>): (names: seq<string>)
    ensures forall n | n in names ::
              n in SectionsOf(route.parentRefs)
              && exists k :: k in g.httpsListeners && g.httpsListeners[k].listener.name == n
    ensures forall k | k in order && k in g.httpsListeners ::
              g.httpsListeners[k].listener.name in SectionsOf(route.parentRefs)
              ==> g.httpsListeners[k].listener.name in names
  {
    if order == [] then []
    else
      var key := order[|order| - 1];
      ParentHTTPSListenerNames(g, route, order[..|order| - 1]) +
      if key in g.httpsListeners && g.httpsListeners[key].listener.name in SectionsOf(route.parentRefs)
      then [g.httpsListeners[key].listener.name] else []
  }

  /** `HTTPRouteContext`. */
  class HTTPRouteContext {
    var route: HTTPRoute
    const namedParentSections: set<string>

    constructor (route: HTTPRoute)
      ensures this.route == route && namedParentSections == SectionsOf(route.parentRefs)
    {
      var sections: set<string> := {};
      for i := 0 to |route.parentRefs|
        invariant sections == SectionsOf(route.parentRefs[..i])
      {
        var ref := route.parentRefs[i];
        SectionsSnoc(route.parentRefs[..i], ref);
        assert route.parentRefs[..i + 1] == route.parentRefs[..i] + [ref];
        if ref.sectionName.Some? {
          sections := sections + {ref.sectionName.value};
        }
      }
      assert route.parentRefs[..|route.parentRefs|] == route.parentRefs;
      this.route, this.namedParentSections := route, sections;
    }

    method EnsureHTTPSListener(
      naming: Naming, graph: AGCResourceGraph, gateway: GatewayContext, hostname: string, secret: NamespacedName)
      requires gateway.Valid() && graph.Valid()
      modifies this`route, gateway`httpsListeners, gateway.httpsListeners.Values, graph`referenceGrants
      ensures gateway.Valid() && graph.Valid()
      ensures fresh(gateway.httpsListeners.Values - old(gateway.httpsListeners.Values))
      ensures (World(gateway.View(), graph.View()), route)
           == RouteWithListener(naming, old(World(gateway.View(), graph.View())), old(route), namedParentSections,
                                hostname, secret)
    {
      var sectionName := gateway.EnsureHTTPSListener(naming, graph, hostname, secret);
      assert sectionName == gateway.View().httpsListeners[HTTPSKey(hostname)].listener.name;
      if sectionName !in namedParentSections {
        route := route.(parentRefs := route.parentRefs +
        [ParentReference(Some(GATEWAY_GROUP), Some(KIND_GATEWAY), gateway.name.name, Some(gateway.name.namespace),
                         Some(sectionName))]);
      }
    }

    method GetParentHTTPSListenerNames(gateway: GatewayContext, order: seq<ListenerKey>) returns (names: seq<string>)
      requires Lists(order, gateway.httpsListeners.Keys)
      ensures names == ParentHTTPSListenerNames(gateway.View(), route, order)
    {
      var listenerNames: set<string> := {};
      for i := 0 to |route.parentRefs|
        invariant listenerNames == SectionsOf(route.parentRefs[..i])
      {
        var ref := route.parentRefs[i];
        SectionsSnoc(route.parentRefs[..i], ref);
        assert route.parentRefs[..i + 1] == route.parentRefs[..i] + [ref];
        if ref.sectionName.Some? {
          listenerNames := listenerNames + {ref.sectionName.value};
        }
      }
      assert route.parentRefs[..|route.parentRefs|] == route.parentRefs;
      names := [];
      for i := 0 to |order|
        invariant names == ParentHTTPSListenerNames(gateway.View(), route, order[..i])
      {
        assert order[..i + 1][..i] == order[..i];
        assert order[i] in order;
        var listener := gateway.httpsListeners[order[i]];
        if listener.name in listenerNames {
          names := names + [listener.name];
        }
      }
      assert order[..|order|] == order;
    }
  }

  lemma SectionsSnoc(refs: seq<ParentReference>, ref: ParentReference)
    ensures SectionsOf(refs + [ref]) ==
            SectionsOf(refs) + if ref.sectionName.Some? then {ref.sectionName.value} else {}
  {
    var all := refs + [ref];
    assert forall r :: r in all <==> r in refs || r == ref;
    assert ref in all;
  }

  /** Asking a route context twice for the same listener repeats the parent reference exactly when the section was not
      already named when the context was built. */
  lemma RepeatedListenerRef(
    naming: Naming, w: World, route: HTTPRoute, sections: set<string>, hostname: string, secret: NamespacedName)
    ensures var (w1, route1) := RouteWithListener(naming, w, route, sections, hostname, secret);
            var (w2, route2) := RouteWithListener(naming, w1, route1, sections, hostname, secret);
            && w2 == w1
            && (route2.parentRefs == route1.parentRefs <==>
                ListenerFor(naming, w.gateway, hostname, secret).listener.name in sections)
  {
    var (w1, route1) := RouteWithListener(naming, w, route, sections, hostname, secret);
    assert ListenerFor(naming, w1.gateway, hostname, secret) == ListenerFor(naming, w.gateway, hostname, secret);
    assert w1.gateway.httpsListeners == EnsureHTTPS(naming, w1, hostname, secret).gateway.httpsListeners;
  }
}
