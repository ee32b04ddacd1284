/** Names, keys and results shared by all modules. */
module Base {
  datatype Option<+T> = None | Some(value: T)

  /** The error returns of the modelled operations, one per return statement. */
  datatype Error =
    | NilHandler
    | NilRegistration
    | NoMonitor
    | InformerStopped
    | UnknownHandle
    | NotFound
    | AlreadyRegistered
    | NotRegistered
    | InvalidName
    | NotSynced

  datatype Result<+T> = Ok(value: T) | Err(error: Error)

  /** The identifier of a monitored resource. */
  datatype ObjectKey = ObjectKey(ns: string, name: string)

  /** A secret as an informer caches it. */
  datatype SecretObject = SecretObject(ns: string, name: string, data: string)

  /** A route object; `version` stands for everything that can change besides the secret it refers to. */
  datatype Route = Route(ns: string, name: string, secret: string, version: nat)

  /** An event handler: the closures generated for one route, which capture that route. */
  datatype Handler = Handler(route: Route)

  /** What adding a handler returns: the identity of the handler in its informer, and the key of its monitor. */
  datatype Registration = Registration(id: nat, key: ObjectKey)

  /** The text `namespace/name`, used for routes by the manager and for secrets by the store lookup. */
  function PathKey(ns: string, name: string): string {
    ns + "/" + name
  }

  function RouteKey(r: Route): string {
    PathKey(r.ns, r.name)
  }

  function SecretKey(r: Route): ObjectKey {
    ObjectKey(r.ns, r.secret)
  }

  /** The first text is a proper beginning of the third one, cut at a separator. */
  ghost predicate Overlap(sep: char, a1: string, b1: string, a2: string, b2: string) {
    |a1| < |a2| && a2[..|a1| + 1] == a1 + [sep] && b1 == a2[|a1| + 1..] + [sep] + b2
  }

  /** Exactly which pairs are joined to one text: equal ones, and those where one first text holds the separator of the other. */
  lemma JoinCollisions(sep: char, a1: string, b1: string, a2: string, b2: string)
    ensures a1 + [sep] + b1 == a2 + [sep] + b2 <==>
            (a1 == a2 && b1 == b2) || Overlap(sep, a1, b1, a2, b2) || Overlap(sep, a2, b2, a1, b1)
  {
    var p, q := a1 + [sep] + b1, a2 + [sep] + b2;
    assert p[..|a1|] == a1 && p[|a1|] == sep && p[|a1| + 1..] == b1;
    assert q[..|a2|] == a2 && q[|a2|] == sep && q[|a2| + 1..] == b2;
    if |a1| < |a2| {
      OverlapIsCollision(sep, a1, b1, a2, b2);
    } else if |a2| < |a1| {
      OverlapIsCollision(sep, a2, b2, a1, b1);
    }
  }

  lemma OverlapIsCollision(sep: char, a1: string, b1: string, a2: string, b2: string)
    requires |a1| < |a2|
    ensures a1 + [sep] + b1 == a2 + [sep] + b2 <==> Overlap(sep, a1, b1, a2, b2)
  {
    var p, q := a1 + [sep] + b1, a2 + [sep] + b2;
    var cut := |a1| + 1;
    assert p[..cut] == a1 + [sep] && p[cut..] == b1;
    assert q[..cut] == a2[..cut] && q[cut..] == a2[cut..] + [sep] + b2;
    if p == q {
      assert Overlap(sep, a1, b1, a2, b2);
    }
  }

  /** The text is the namespace, a slash and the name: it begins with the one, ends with the other, and has no more. */
  lemma PathKeyText(ns: string, name: string, text: string)
    ensures text == PathKey(ns, name) <==>
            |text| == |ns| + 1 + |name| && ns <= text && text[|ns|] == '/' && text[|ns| + 1..] == name
  {
    if |text| == |ns| + 1 + |name| && ns <= text && text[|ns|] == '/' && text[|ns| + 1..] == name {
      assert text == text[..|ns|] + [text[|ns|]] + text[|ns| + 1..];
    }
  }

  /** Exactly which pairs of namespace and name share a text. */
  lemma PathKeyCollisions(ns1: string, name1: string, ns2: string, name2: string)
    ensures PathKey(ns1, name1) == PathKey(ns2, name2) <==>
            (ns1 == ns2 && name1 == name2) || Overlap('/', ns1, name1, ns2, name2) || Overlap('/', ns2, name2, ns1, name1)
  {
    JoinCollisions('/', ns1, name1, ns2, name2);
  }

  /** Namespaces hold no slash, so a route's text identifies its namespace and its name. */
  lemma PathKeyInjective(ns1: string, name1: string, ns2: string, name2: string)
    requires '/' !in ns1 && '/' !in ns2
    requires PathKey(ns1, name1) == PathKey(ns2, name2)
    ensures ns1 == ns2 && name1 == name2
  {
    PathKeyCollisions(ns1, name1, ns2, name2);
    OverlapHasSeparator('/', ns1, name1, ns2, name2);
    OverlapHasSeparator('/', ns2, name2, ns1, name1);
  }

  lemma OverlapHasSeparator(sep: char, a1: string, b1: string, a2: string, b2: string)
    ensures Overlap(sep, a1, b1, a2, b2) ==> sep in a2 && sep in b1
  {
    if Overlap(sep, a1, b1, a2, b2) {
      assert a2[..|a1| + 1][|a1|] == sep;
      assert b1[|a2| - |a1| - 1] == sep;
    }
  }

  /** A set and its image under an injective map have the same size. */
  lemma {:induction false} InjectiveImageSize<K, V>(keys: set<K>, f: map<K, V>, image: set<V>)
    requires keys <= f.Keys && image == set k | k in keys :: f[k]
    requires forall a, b | a in keys && b in keys && f[a] == f[b] :: a == b
    ensures |image| == |keys|
  {
    if keys != {} {
      var a :| a in keys;
      InjectiveImageSize(keys - {a}, f, image - {f[a]});
    }
  }
}
