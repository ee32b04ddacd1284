/** The names `route_secret` of per-route monitors: how they are built, checked and taken apart. */
module RouteNames {
  import opened Base

  // ---- Splitting a text at a separator ----

  function Split(s: string, sep: char): (parts: seq<string>)
    ensures parts != []
  {
    if s == "" then [""]
    else
      var rest := Split(s[1..], sep);
      if s[0] == sep then [""] + rest else [[s[0]] + rest[0]] + rest[1..]
  }

  function Join(parts: seq<string>, sep: char): string
    requires parts != []
  {
    if |parts| == 1 then parts[0] else parts[0] + [sep] + Join(parts[1..], sep)
  }

  ghost predicate Free(parts: seq<string>, sep: char) {
    forall i | 0 <= i < |parts| :: sep !in parts[i]
  }

  lemma {:induction false} SplitParts(s: string, sep: char)
    ensures Free(Split(s, sep), sep) && Join(Split(s, sep), sep) == s
  {
    if s != "" {
      SplitParts(s[1..], sep);
      var rest, parts := Split(s[1..], sep), Split(s, sep);
      if s[0] == sep {
        assert parts[1..] == rest;
      } else {
        assert parts[1..] == rest[1..];
        assert forall i | 1 <= i < |parts| :: parts[i] == rest[i];
        assert Join(parts, sep) == [s[0]] + Join(rest, sep);
      }
    }
  }

  lemma {:induction false} SplitPiece(a: string, s: string, sep: char)
    requires sep !in a
    ensures Split(a + [sep] + s, sep) == [a] + Split(s, sep)
  {
    if a == "" {
      assert (a + [sep] + s)[1..] == s;
    } else {
      assert sep !in a[1..];
      assert (a + [sep] + s)[1..] == a[1..] + [sep] + s;
      SplitPiece(a[1..], s, sep);
      assert [a[0]] + a[1..] == a;
    }
  }

  lemma {:induction false} SplitWhole(a: string, sep: char)
    requires sep !in a
    ensures Split(a, sep) == [a]
  {
    if a != "" {
      assert sep !in a[1..];
      SplitWhole(a[1..], sep);
      assert [a[0]] + a[1..] == a;
    }
  }

  /** Splitting undoes joining, so the parts of a text are the only ones that join to it. */
  lemma {:induction false} SplitUndoesJoin(parts: seq<string>, sep: char)
    requires parts != [] && Free(parts, sep)
    ensures Split(Join(parts, sep), sep) == parts
  {
    if |parts| == 1 {
      SplitWhole(parts[0], sep);
    } else {
      assert Free(parts[1..], sep);
      SplitUndoesJoin(parts[1..], sep);
      SplitPiece(parts[0], Join(parts[1..], sep), sep);
    }
  }

  // ---- Names of monitors ----

  predicate ValidateName(name: string) {
    var keys := Split(name, '_');
    |keys| == 2 && |keys[0]| > 0 && |keys[1]| > 0
  }

  function GetSecretName(name: string, isValidated: bool): Result<string>
    requires isValidated ==> ValidateName(name)
  {
    if !isValidated && !ValidateName(name) then Err(InvalidName) else Ok(Split(name, '_')[1])
  }

  function GenerateKey(ns: string, routeName: string, secretName: string): ObjectKey {
    ObjectKey(ns, routeName + "_" + secretName)
  }

  predicate Plain(s: string) {
    s != "" && '_' !in s
  }

  lemma PairParts(a: string, b: string)
    requires Plain(a) && Plain(b)
    ensures Split(a + "_" + b, '_') == [a, b]
  {
    SplitPiece(a, b, '_');
    SplitWhole(b, '_');
  }

  /** A name is valid exactly if it is two plain names around an underscore; these two are unique, and the second is decoded. */
  lemma ValidExactly(name: string)
    ensures ValidateName(name) <==> exists a, b :: Plain(a) && Plain(b) && name == a + "_" + b
    ensures forall a, b | Plain(a) && Plain(b) && name == a + "_" + b ::
              Split(name, '_') == [a, b] && GetSecretName(name, false) == Ok(b)
  {
    if ValidateName(name) {
      SplitParts(name, '_');
      var keys := Split(name, '_');
      assert Join(keys[1..], '_') == keys[1];
      assert name == keys[0] + "_" + keys[1] && Plain(keys[0]) && Plain(keys[1]);
    }
    forall a, b | Plain(a) && Plain(b) && name == a + "_" + b ensures Split(name, '_') == [a, b] {
      PairParts(a, b);
    }
  }

  /** A generated key is valid exactly if both names are plain. */
  lemma GeneratedValid(ns: string, routeName: string, secretName: string)
    ensures ValidateName(GenerateKey(ns, routeName, secretName).name) <==> Plain(routeName) && Plain(secretName)
  {
    var name := GenerateKey(ns, routeName, secretName).name;
    ValidExactly(name);
    if ValidateName(name) {
      Underscores(routeName, secretName);
    }
  }

  /** Around the underscore that joins two names, a valid text has no other. */
  lemma Underscores(a: string, b: string)
    requires ValidateName(a + "_" + b)
    ensures Plain(a) && Plain(b)
  {
    var name := a + "_" + b;
    ValidExactly(name);
    var x, y :| Plain(x) && Plain(y) && name == x + "_" + y;
    forall i | 0 <= i < |name| && i != |x| ensures name[i] != '_' {
      assert name[i] == if i < |x| then x[i] else y[i - |x| - 1];
    }
    assert name[|a|] == '_';
    assert a == name[..|a|] && x == name[..|x|] && b == name[|a| + 1..] && y == name[|x| + 1..];
  }

  /** Valid generated keys identify the namespace, the route and the secret, and decode to the secret. */
  lemma GeneratedInjective(ns1: string, route1: string, secret1: string, ns2: string, route2: string, secret2: string)
    requires GenerateKey(ns1, route1, secret1) == GenerateKey(ns2, route2, secret2)
    requires ValidateName(GenerateKey(ns1, route1, secret1).name)
    ensures ns1 == ns2 && route1 == route2 && secret1 == secret2
    ensures GetSecretName(GenerateKey(ns1, route1, secret1).name, false) == Ok(secret1)
  {
    Underscores(route1, secret1);
    Underscores(route2, secret2);
    ValidExactly(GenerateKey(ns1, route1, secret1).name);
  }

  /**
   Exactly which generated keys are equal, checked or not: those of equal names, and those in one namespace where
   one route's name holds the underscore of the other.
   */
  lemma GeneratedCollisions(ns1: string, route1: string, secret1: string, ns2: string, route2: string, secret2: string)
    ensures GenerateKey(ns1, route1, secret1) == GenerateKey(ns2, route2, secret2) <==>
            ns1 == ns2 && ((route1 == route2 && secret1 == secret2)
                           || Overlap('_', route1, secret1, route2, secret2) || Overlap('_', route2, secret2, route1, secret1))
  {
    JoinCollisions('_', route1, secret1, route2, secret2);
  }

  /** Without the check two routes can share a key. */
  lemma UncheckedKeysCollide()
    ensures GenerateKey("ns", "a_b", "c") == GenerateKey("ns", "a", "b_c")
    ensures !ValidateName(GenerateKey("ns", "a_b", "c").name)
  {
    assert "a_b"[..2] == "a" + "_" && "b_c" == "a_b"[2..] + "_" + "c";
    GeneratedCollisions("ns", "a", "b_c", "ns", "a_b", "c");
    GeneratedValid("ns", "a_b", "c");
  }
}
