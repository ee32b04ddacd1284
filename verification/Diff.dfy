/**
 The structural difference of two values: structs, slices and maps of equal shape are compared part by part, and
 every pair of parts that differs is recorded with both values and the text of its place. Next to that text,
 which need not be unambiguous, a record holds its place as a path.
 */
module Diff {
  import opened Base

  datatype Field = Field(name: string, value: Value)

  /** A reflected value. A leaf is a value of any other kind; `datum` is all that deep equality sees of it. */
  datatype Value =
    | Leaf(kind: nat, datum: nat)
    | Struct(fields: seq<Field>)
    | Slice(isNil: bool, elems: seq<Value>)
    | Map(isNil: bool, entries: map<string, Value>)

  datatype Step = FieldStep(i: nat, name: string) | IndexStep(i: nat) | KeyStep(key: string)

  type Path = seq<Step>

  datatype Change = Change(field: string, path: Path, oldVal: Value, newVal: Value)

  /** The order in which the keys of the map at a place are enumerated: unspecified, and perhaps different everywhere. */
  type Order = (Path, set<string>) -> seq<string>

  ghost predicate Distinct<T>(s: seq<T>) {
    forall i, j | 0 <= i < j < |s| :: s[i] != s[j]
  }

  ghost predicate ValidOrder(order: Order) {
    forall p, keys :: Distinct(order(p, keys)) && forall k :: k in order(p, keys) <==> k in keys
  }

  // ---- The parts of a value ----

  /** The two values are compared part by part. */
  predicate Descends(a: Value, b: Value) {
    match a
    case Leaf(_, _) => false
    case Struct(_) => b.Struct?
    case Slice(_, es) => b.Slice? && |es| == |b.elems|
    case Map(_, m) => b.Map? && |m| == |b.entries|
  }

  /** The two values are recorded as different, as a whole. */
  predicate Mismatch(a: Value, b: Value) {
    !Descends(a, b) && a != b
  }

  /** A value has a part at this step; only the position of a field counts. */
  predicate Has(v: Value, s: Step) {
    match s
    case FieldStep(i, _) => v.Struct? && i < |v.fields|
    case IndexStep(i) => v.Slice? && i < |v.elems|
    case KeyStep(k) => v.Map? && k in v.entries
  }

  /** A step into a value, with the value's own name of the field. */
  predicate IsStep(v: Value, s: Step) {
    Has(v, s) && (s.FieldStep? ==> v.fields[s.i].name == s.name)
  }

  function Child(v: Value, s: Step): (c: Value)
    requires Has(v, s)
    ensures c < v
  {
    match s
    case FieldStep(i, _) => v.fields[i].value
    case IndexStep(i) => v.elems[i]
    case KeyStep(k) => v.entries[k]
  }

  function Steps(order: Order, p: Path, v: Value): (steps: seq<Step>)
    requires ValidOrder(order)
    ensures Distinct(steps) && forall s :: s in steps <==> IsStep(v, s)
  {
    match v
    case Leaf(_, _) => []
    case Struct(fs) =>
      var r := seq(|fs|, i requires 0 <= i < |fs| => FieldStep(i, fs[i].name));
      assert forall s | IsStep(v, s) :: s == r[s.i];
      r
    case Slice(_, es) =>
      var r := seq(|es|, i requires 0 <= i < |es| => IndexStep(i));
      assert forall s | IsStep(v, s) :: s == r[s.i];
      r
    case Map(_, m) => Keyed(order(p, m.Keys))
  }

  function Keyed(keys: seq<string>): (steps: seq<Step>)
    ensures |steps| == |keys| && forall i | 0 <= i < |keys| :: steps[i] == KeyStep(keys[i])
  {
    seq(|keys|, i requires 0 <= i < |keys| => KeyStep(keys[i]))
  }

  // ---- The text of a place ----

  function Decimal(n: nat): string {
    if n < 10 then ["0123456789"[n]] else Decimal(n / 10) + ["0123456789"[n % 10]]
  }

  function Render(field: string, s: Step): string {
    match s
    case FieldStep(_, name) => if field == "" then name else field + "." + name
    case IndexStep(i) => field + "[" + Decimal(i) + "]"
    case KeyStep(k) => field + "[" + k + "]"
  }

  function RenderAll(field: string, q: Path): string
    decreases |q|
  {
    if q == [] then field else RenderAll(Render(field, q[0]), q[1..])
  }

  // ---- What the text of a place says ----

  function Number(s: string): nat {
    if s == "" then 0 else Number(s[..|s| - 1]) * 10 + (if '0' <= s[|s| - 1] <= '9' then (s[|s| - 1] - '0') as nat else 0)
  }

  /** The text is this number as it is written: digits only, and no zero in front of others. */
  ghost predicate IsDecimal(s: string, n: nat) {
    s != "" && (forall c | c in s :: '0' <= c <= '9') && Number(s) == n && (|s| > 1 ==> s[0] != '0')
  }

  lemma {:induction false} DecimalIsDecimal(n: nat)
    ensures IsDecimal(Decimal(n), n) && (n > 0 ==> Decimal(n)[0] != '0')
  {
    if n >= 10 {
      DecimalIsDecimal(n / 10);
      assert Decimal(n)[..|Decimal(n)| - 1] == Decimal(n / 10);
    } else {
      assert Number(Decimal(n)[..0]) == 0;
    }
  }

  lemma DigitOf(c: char)
    requires '0' <= c <= '9'
    ensures "0123456789"[(c - '0') as nat] == c
  {
  }

  lemma LastDigit(s: string, n: nat)
    requires |s| > 1 && IsDecimal(s, n)
    ensures IsDecimal(s[..|s| - 1], n / 10) && "0123456789"[n % 10] == s[|s| - 1]
  {
    var front, last := s[..|s| - 1], s[|s| - 1];
    assert last in s && front[0] == s[0] && forall c | c in front :: c in s;
    DigitOf(last);
    assert n == Number(front) * 10 + (last - '0') as nat;
  }

  lemma OneDigit(s: string, n: nat)
    requires |s| == 1 && IsDecimal(s, n)
    ensures s == ["0123456789"[n % 10]] && n < 10
  {
    assert s[0] in s && s[..|s| - 1] == "";
    DigitOf(s[0]);
    assert Number(s[..|s| - 1]) == 0;
    assert n == (s[0] - '0') as nat;
  }

  /** Every number is written in exactly one way. */
  lemma {:induction false} DecimalExactly(s: string, n: nat)
    ensures IsDecimal(s, n) <==> s == Decimal(n)
    decreases |s|
  {
    DecimalIsDecimal(n);
    if IsDecimal(s, n) {
      DecimalOnly(s, n);
    }
  }

  lemma {:induction false} DecimalOnly(s: string, n: nat)
    requires IsDecimal(s, n)
    ensures s == Decimal(n)
    decreases |s|
  {
    if |s| == 1 {
      OneDigit(s, n);
    } else {
      var front := s[..|s| - 1];
      LastDigit(s, n);
      DecimalOnly(front, n / 10);
      assert front[0] == s[0] != '0';
      assert n >= 10;
      assert s == front + [s[|s| - 1]];
    }
  }

  /** What a step adds to the text: a name, after a dot unless it comes first, or a position or a key in brackets. */
  ghost predicate IsPiece(first: bool, piece: string, s: Step) {
    match s
    case FieldStep(_, name) => piece == if first then name else "." + name
    case IndexStep(i) => exists digits :: IsDecimal(digits, i) && piece == "[" + digits + "]"
    case KeyStep(k) => piece == "[" + k + "]"
  }

  /** The text goes on from `before` with the pieces of the steps, one after the other. */
  ghost predicate Spells(before: string, text: string, q: Path)
    decreases |q|
  {
    if q == [] then text == before
    else exists piece :: IsPiece(before == "", piece, q[0]) && Spells(before + piece, text, q[1..])
  }

  lemma RenderIsPiece(field: string, piece: string, s: Step)
    ensures IsPiece(field == "", piece, s) ==> field + piece == Render(field, s)
    ensures exists p :: IsPiece(field == "", p, s) && field + p == Render(field, s)
  {
    hide Decimal, IsDecimal;
    match s
    case FieldStep(_, name) =>
      var p := if field == "" then name else "." + name;
      assert IsPiece(field == "", p, s) && field + p == Render(field, s);
    case IndexStep(i) =>
      forall digits ensures IsDecimal(digits, i) <==> digits == Decimal(i) {
        DecimalExactly(digits, i);
      }
      assert IsPiece(field == "", "[" + Decimal(i) + "]", s);
      assert field + ("[" + Decimal(i) + "]") == Render(field, s);
    case KeyStep(k) =>
      assert IsPiece(field == "", "[" + k + "]", s);
      assert field + ("[" + k + "]") == Render(field, s);
  }

  /** A path is spelled by exactly one text, and this is the one that is rendered. */
  lemma {:induction false} TextExactly(field: string, text: string, q: Path)
    ensures Spells(field, text, q) <==> text == RenderAll(field, q)
    decreases |q|
  {
    hide IsPiece, Render;
    if q != [] {
      forall piece ensures IsPiece(field == "", piece, q[0]) ==> field + piece == Render(field, q[0]) {
        RenderIsPiece(field, piece, q[0]);
      }
      RenderIsPiece(field, "", q[0]);
      TextExactly(Render(field, q[0]), text, q[1..]);
    }
  }

  // ---- The difference ----

  /** No part that is looked for is missing in the new value; otherwise the comparison panics. */
  ghost predicate Safe(a: Value, b: Value) {
    Descends(a, b) ==> forall s | IsStep(a, s) :: Has(b, s) && Safe(Child(a, s), Child(b, s))
  }

  ghost predicate SafeAt(a: Value, b: Value, s: Step) {
    IsStep(a, s) && Has(b, s) && Safe(Child(a, s), Child(b, s))
  }

  function Diff(order: Order, field: string, p: Path, a: Value, b: Value): seq<Change>
    requires ValidOrder(order) && Safe(a, b)
    decreases a, 1, 0
  {
    if Descends(a, b) then DiffSteps(order, field, p, a, b, Steps(order, p, a))
    else if Mismatch(a, b) then [Change(field, p, a, b)]
    else []
  }

  function DiffSteps(order: Order, field: string, p: Path, a: Value, b: Value, steps: seq<Step>): seq<Change>
    requires ValidOrder(order) && forall i | 0 <= i < |steps| :: SafeAt(a, b, steps[i])
    decreases a, 0, |steps|
  {
    if steps == [] then []
    else
      assert SafeAt(a, b, steps[0]);
      Diff(order, Render(field, steps[0]), p + [steps[0]], Child(a, steps[0]), Child(b, steps[0]))
      + DiffSteps(order, field, p, a, b, steps[1..])
  }

  // ---- What is recorded ----

  /** Both values can be followed along a path, compared part by part all the way. */
  ghost predicate Reach(a: Value, b: Value, q: Path)
    decreases |q|
  {
    q == [] || (Descends(a, b) && IsStep(a, q[0]) && Has(b, q[0]) && Reach(Child(a, q[0]), Child(b, q[0]), q[1..]))
  }

  /** The two parts at the end of a path. */
  ghost function At(a: Value, b: Value, q: Path): (r: (Value, Value))
    requires Reach(a, b, q)
    decreases |q|
  {
    if q == [] then (a, b) else At(Child(a, q[0]), Child(b, q[0]), q[1..])
  }

  /** The record of a place that is reached, and where the two parts differ as a whole. */
  ghost predicate Recorded(field: string, a: Value, b: Value, c: Change) {
    && Reach(a, b, c.path)
    && (c.oldVal, c.newVal) == At(a, b, c.path) && Mismatch(c.oldVal, c.newVal)
    && Spells(field, c.field, c.path)
  }

  function Below(c: Change, n: nat): Change
    requires n <= |c.path|
  {
    c.(path := c.path[n..])
  }

  function Above(c: Change, s: Step): Change {
    c.(path := [s] + c.path)
  }

  lemma RecordedUnder(field: string, a: Value, b: Value, s: Step, c: Change)
    requires Descends(a, b) && IsStep(a, s) && Has(b, s)
    ensures Recorded(Render(field, s), Child(a, s), Child(b, s), c) <==> Recorded(field, a, b, Above(c, s))
  {
    hide Spells, Render, Mismatch;
    assert Above(c, s).path[1..] == c.path;
    TextExactly(Render(field, s), c.field, c.path);
    TextExactly(field, c.field, Above(c, s).path);
  }

  /** The difference records exactly the places that are reached and where the two parts differ as a whole. */
  lemma {:induction false} DiffExact(order: Order, field: string, p: Path, a: Value, b: Value, c: Change)
    requires ValidOrder(order) && Safe(a, b)
    ensures c in Diff(order, field, p, a, b) <==> p <= c.path && Recorded(field, a, b, Below(c, |p|))
    decreases a, 1, 0
  {
    if Descends(a, b) {
      DiffStepsExact(order, field, p, a, b, Steps(order, p, a), c);
    } else if p <= c.path && c.path[|p|..] == [] {
      assert c.path == p;
    }
  }

  lemma {:induction false} DiffStepsExact(order: Order, field: string, p: Path, a: Value, b: Value, steps: seq<Step>, c: Change)
    requires ValidOrder(order) && Descends(a, b) && forall i | 0 <= i < |steps| :: SafeAt(a, b, steps[i])
    ensures c in DiffSteps(order, field, p, a, b, steps) <==>
            p < c.path && c.path[|p|] in steps && Recorded(field, a, b, Below(c, |p|))
    decreases a, 0, |steps|
  {
    hide Recorded, Diff, Steps, Render, Mismatch, Has, Child;
    if steps != [] {
      var s := steps[0];
      assert SafeAt(a, b, s);
      DiffExact(order, Render(field, s), p + [s], Child(a, s), Child(b, s), c);
      DiffStepsExact(order, field, p, a, b, steps[1..], c);
      if p + [s] <= c.path {
        assert c.path[|p|..] == [s] + c.path[|p + [s]|..];
        RecordedUnder(field, a, b, s, Below(c, |p| + 1));
      }
    }
  }

  // ---- No place is recorded twice, nor together with a place inside it ----

  ghost predicate DistinctPaths(cs: seq<Change>) {
    forall i, j | 0 <= i < j < |cs| :: cs[i].path != cs[j].path
  }

  lemma {:induction false} DiffDistinct(order: Order, field: string, p: Path, a: Value, b: Value)
    requires ValidOrder(order) && Safe(a, b)
    ensures DistinctPaths(Diff(order, field, p, a, b))
    decreases a, 1, 0
  {
    if Descends(a, b) {
      DiffStepsDistinct(order, field, p, a, b, Steps(order, p, a));
    }
  }

  lemma {:induction false} DiffStepsDistinct(order: Order, field: string, p: Path, a: Value, b: Value, steps: seq<Step>)
    requires ValidOrder(order) && Descends(a, b) && forall i | 0 <= i < |steps| :: SafeAt(a, b, steps[i])
    requires Distinct(steps)
    ensures DistinctPaths(DiffSteps(order, field, p, a, b, steps))
    decreases a, 0, |steps|
  {
    if steps != [] {
      var s := steps[0];
      var first := Diff(order, Render(field, s), p + [s], Child(a, s), Child(b, s));
      var rest := DiffSteps(order, field, p, a, b, steps[1..]);
      DiffDistinct(order, Render(field, s), p + [s], Child(a, s), Child(b, s));
      DiffStepsDistinct(order, field, p, a, b, steps[1..]);
      forall c, d | c in first && d in rest ensures c.path != d.path {
        DiffExact(order, Render(field, s), p + [s], Child(a, s), Child(b, s), c);
        DiffStepsExact(order, field, p, a, b, steps[1..], d);
        assert c.path[|p|] == s;
      }
    }
  }

  /** Below a place that is recorded nothing is compared. */
  lemma {:induction false} NothingBelow(a: Value, b: Value, q: Path, r: Path)
    requires Reach(a, b, q) && Reach(a, b, r) && q < r
    ensures Descends(At(a, b, q).0, At(a, b, q).1)
    decreases |q|
  {
    if q != [] {
      NothingBelow(Child(a, q[0]), Child(b, q[0]), q[1..], r[1..]);
    }
  }

  /** The recorded places are pairwise distinct, and none lies inside another. */
  lemma PathsArePrefixFree(order: Order, a: Value, b: Value, i: nat, j: nat)
    requires ValidOrder(order) && Safe(a, b)
    requires var cs := Diff(order, "", [], a, b); i < |cs| && j < |cs| && i != j
    ensures var cs := Diff(order, "", [], a, b); !(cs[i].path <= cs[j].path)
  {
    var cs := Diff(order, "", [], a, b);
    DiffDistinct(order, "", [], a, b);
    DiffExact(order, "", [], a, b, cs[i]);
    DiffExact(order, "", [], a, b, cs[j]);
    assert cs[i].path[0..] == cs[i].path && cs[j].path[0..] == cs[j].path;
    assert cs[i].path != cs[j].path;
    if cs[i].path < cs[j].path {
      NothingBelow(a, b, cs[i].path, cs[j].path);
    }
  }

  // ---- The order of enumeration ----

  /** For any two ways to enumerate the keys of maps, the two differences are permutations of each other. */
  lemma OrderIndependence(o1: Order, o2: Order, field: string, p: Path, a: Value, b: Value)
    requires ValidOrder(o1) && ValidOrder(o2) && Safe(a, b)
    ensures multiset(Diff(o1, field, p, a, b)) == multiset(Diff(o2, field, p, a, b))
  {
    var d1, d2 := Diff(o1, field, p, a, b), Diff(o2, field, p, a, b);
    DiffDistinct(o1, field, p, a, b);
    DiffDistinct(o2, field, p, a, b);
    forall c ensures multiset(d1)[c] == multiset(d2)[c] {
      DiffExact(o1, field, p, a, b, c);
      DiffExact(o2, field, p, a, b, c);
      CountDistinct(d1, c);
      CountDistinct(d2, c);
    }
  }

  lemma {:induction false} CountDistinct(cs: seq<Change>, c: Change)
    requires DistinctPaths(cs)
    ensures multiset(cs)[c] == if c in cs then 1 else 0
  {
    if cs != [] {
      assert cs == [cs[0]] + cs[1..];
      CountDistinct(cs[1..], c);
    }
  }

  // ---- Completeness ----

  /** The value without the difference between nil and empty slices and maps. */
  function Erase(v: Value): Value {
    match v
    case Leaf(_, _) => v
    case Struct(fs) => Struct(seq(|fs|, i requires 0 <= i < |fs| => Field(fs[i].name, Erase(fs[i].value))))
    case Slice(_, es) => Slice(false, seq(|es|, i requires 0 <= i < |es| => Erase(es[i])))
    case Map(_, m) => Map(false, map k | k in m :: Erase(m[k]))
  }

  predicate SameNames(a: Value, b: Value) {
    a.Struct? && b.Struct? ==>
      |a.fields| == |b.fields| && forall i | 0 <= i < |a.fields| :: a.fields[i].name == b.fields[i].name
  }

  /** Structs that are compared have the same fields, as values of one type do. */
  ghost predicate Aligned(a: Value, b: Value) {
    SameNames(a, b) && (Descends(a, b) ==> forall s | IsStep(a, s) && Has(b, s) :: Aligned(Child(a, s), Child(b, s)))
  }

  /** Equal sizes and no missing old key make equal keys. */
  lemma SameKeys(m: map<string, Value>, n: map<string, Value>)
    requires |m| == |n| && forall k | k in m :: k in n
    ensures m.Keys == n.Keys
  {
    assert |m.Keys| == |n.Keys| && m.Keys <= n.Keys;
    assert |n.Keys - m.Keys| == 0;
  }

  lemma EraseByParts(a: Value, b: Value)
    requires Descends(a, b) && SameNames(a, b) && forall s | IsStep(a, s) :: Has(b, s)
    ensures Erase(a) == Erase(b) <==> forall s | IsStep(a, s) :: Erase(Child(a, s)) == Erase(Child(b, s))
  {
    match a {
      case Struct(fs) => EraseStruct(a, b);
      case Slice(_, es) => EraseSlice(a, b);
      case Map(_, m) =>
        forall k | k in m ensures k in b.entries {
          assert IsStep(a, KeyStep(k));
        }
        EraseMap(a, b);
    }
  }

  lemma EraseStruct(a: Value, b: Value)
    requires a.Struct? && b.Struct? && SameNames(a, b)
    ensures Erase(a) == Erase(b) <==> forall s | IsStep(a, s) :: Erase(Child(a, s)) == Erase(Child(b, s))
  {
    var x, y := Erase(a).fields, Erase(b).fields;
    if forall s | IsStep(a, s) :: Erase(Child(a, s)) == Erase(Child(b, s)) {
      forall i | 0 <= i < |x| ensures x[i] == y[i] {
        assert IsStep(a, FieldStep(i, a.fields[i].name));
      }
      assert x == y;
    }
    if x == y {
      forall s | IsStep(a, s) ensures Erase(Child(a, s)) == Erase(Child(b, s)) {
        assert x[s.i].value == y[s.i].value;
      }
    }
  }

  lemma EraseSlice(a: Value, b: Value)
    requires a.Slice? && b.Slice? && |a.elems| == |b.elems|
    ensures Erase(a) == Erase(b) <==> forall s | IsStep(a, s) :: Erase(Child(a, s)) == Erase(Child(b, s))
  {
    var x, y := Erase(a).elems, Erase(b).elems;
    if forall s | IsStep(a, s) :: Erase(Child(a, s)) == Erase(Child(b, s)) {
      forall i | 0 <= i < |x| ensures x[i] == y[i] {
        assert IsStep(a, IndexStep(i));
      }
      assert x == y;
    }
    if x == y {
      forall s | IsStep(a, s) ensures Erase(Child(a, s)) == Erase(Child(b, s)) {
        assert x[s.i] == y[s.i];
      }
    }
  }

  lemma EraseMap(a: Value, b: Value)
    requires a.Map? && b.Map? && |a.entries| == |b.entries| && forall k | k in a.entries :: k in b.entries
    ensures Erase(a) == Erase(b) <==> forall s | IsStep(a, s) :: Has(b, s) && Erase(Child(a, s)) == Erase(Child(b, s))
  {
    var x, y := Erase(a).entries, Erase(b).entries;
    SameKeys(a.entries, b.entries);
    if forall s | IsStep(a, s) :: Has(b, s) && Erase(Child(a, s)) == Erase(Child(b, s)) {
      forall k | k in x ensures x[k] == y[k] {
        assert IsStep(a, KeyStep(k));
      }
      assert x == y;
    }
    if x == y {
      forall s | IsStep(a, s) ensures Has(b, s) && Erase(Child(a, s)) == Erase(Child(b, s)) {
        assert x[s.key] == y[s.key];
      }
    }
  }

  lemma {:induction false} DiffStepsEmpty(order: Order, field: string, p: Path, a: Value, b: Value, steps: seq<Step>)
    requires ValidOrder(order) && forall i | 0 <= i < |steps| :: SafeAt(a, b, steps[i])
    ensures DiffSteps(order, field, p, a, b, steps) == [] <==>
            forall s | s in steps :: SafeAt(a, b, s) && Diff(order, Render(field, s), p + [s], Child(a, s), Child(b, s)) == []
    decreases |steps|
  {
    if steps != [] {
      DiffStepsEmpty(order, field, p, a, b, steps[1..]);
      assert SafeAt(a, b, steps[0]);
      assert forall s :: s in steps <==> s == steps[0] || s in steps[1..];
    }
  }

  /** Nothing is recorded exactly when the two values are equal, but for nil against empty. */
  lemma {:induction false} Completeness(order: Order, field: string, p: Path, a: Value, b: Value)
    requires ValidOrder(order) && Safe(a, b) && Aligned(a, b)
    ensures Diff(order, field, p, a, b) == [] <==> Erase(a) == Erase(b)
    decreases a
  {
    if Descends(a, b) {
      EraseByParts(a, b);
      DiffStepsEmpty(order, field, p, a, b, Steps(order, p, a));
      forall s | IsStep(a, s)
        ensures Diff(order, Render(field, s), p + [s], Child(a, s), Child(b, s)) == [] <==> Erase(Child(a, s)) == Erase(Child(b, s)) {
        Completeness(order, Render(field, s), p + [s], Child(a, s), Child(b, s));
      }
    } else {
      EraseKeepsShape(a, b);
    }
  }

  lemma EraseKeepsShape(a: Value, b: Value)
    requires !Descends(a, b)
    ensures Erase(a) == Erase(b) <==> a == b
  {
    if a.Slice? && b.Slice? {
      assert |Erase(a).elems| == |a.elems| && |Erase(b).elems| == |b.elems|;
    }
    if a.Map? && b.Map? {
      assert Erase(a).entries.Keys == a.entries.Keys && Erase(b).entries.Keys == b.entries.Keys;
      assert |a.entries.Keys| == |a.entries| && |b.entries.Keys| == |b.entries|;
    }
  }

  // ---- Applying a difference ----

  function Put(v: Value, s: Step, c: Value): Value
    requires Has(v, s)
  {
    match s
    case FieldStep(i, _) => Struct(v.fields[i := v.fields[i].(value := c)])
    case IndexStep(i) => Slice(v.isNil, v.elems[i := c])
    case KeyStep(k) => Map(v.isNil, v.entries[k := c])
  }

  /** Replaces the part at a path. */
  function Replace(v: Value, q: Path, c: Value): Value
    decreases |q|
  {
    if q == [] then c
    else if Has(v, q[0]) then Put(v, q[0], Replace(Child(v, q[0]), q[1..], c))
    else v
  }

  /** Replaces, one after another, the part at each recorded place by the recorded new value. */
  function Patch(v: Value, cs: seq<Change>): Value
    decreases |cs|
  {
    if cs == [] then v else Patch(Replace(v, cs[0].path, cs[0].newVal), cs[1..])
  }

  /** The changes below one part, seen from that part. */
  function Under(cs: seq<Change>, s: Step): seq<Change> {
    if cs == [] then []
    else (if cs[0].path != [] && cs[0].path[0] == s then [Below(cs[0], 1)] else []) + Under(cs[1..], s)
  }

  lemma {:induction false} UnderMembers(cs: seq<Change>, s: Step, c: Change)
    ensures c in Under(cs, s) <==> Above(c, s) in cs
  {
    if cs != [] {
      UnderMembers(cs[1..], s, c);
      assert Above(c, s).path[1..] == c.path;
      if cs[0].path != [] && cs[0].path[0] == s {
        assert cs[0].path == [s] + cs[0].path[1..];
      }
    }
  }

  lemma {:induction false} UnderDistinct(cs: seq<Change>, s: Step)
    requires DistinctPaths(cs)
    ensures DistinctPaths(Under(cs, s))
  {
    if cs != [] {
      UnderDistinct(cs[1..], s);
      if cs[0].path != [] && cs[0].path[0] == s {
        forall c | c in Under(cs[1..], s) ensures c.path != cs[0].path[1..] {
          UnderMembers(cs[1..], s, c);
          assert cs[0].path == [s] + cs[0].path[1..];
        }
      }
    }
  }

  /** Two values have the same parts. */
  predicate SameParts(a: Value, b: Value) {
    match a
    case Leaf(_, _) => b == a
    case Struct(_) => b.Struct? && SameNames(a, b)
    case Slice(_, es) => b.Slice? && |b.elems| == |es|
    case Map(_, m) => b.Map? && b.entries.Keys == m.Keys
  }

  lemma PutParts(v: Value, s: Step, c: Value)
    requires IsStep(v, s)
    ensures SameParts(v, Put(v, s, c))
    ensures forall t | IsStep(v, t) :: Has(Put(v, s, c), t) && Child(Put(v, s, c), t) == if t == s then c else Child(v, t)
  {
  }

  /** Changes strictly below a value keep its parts and patch each of them on its own. */
  lemma {:induction false} PatchByParts(v: Value, cs: seq<Change>)
    requires forall c | c in cs :: c.path != [] && IsStep(v, c.path[0])
    ensures SameParts(v, Patch(v, cs))
    ensures forall s | IsStep(v, s) :: Has(Patch(v, cs), s) && Child(Patch(v, cs), s) == Patch(Child(v, s), Under(cs, s))
    decreases |cs|
  {
    if cs != [] {
      var c := cs[0];
      var w := Replace(v, c.path, c.newVal);
      PutParts(v, c.path[0], Replace(Child(v, c.path[0]), c.path[1..], c.newVal));
      forall t ensures IsStep(w, t) <==> IsStep(v, t) {}
      PatchByParts(w, cs[1..]);
      forall s | IsStep(v, s) ensures Child(Patch(v, cs), s) == Patch(Child(v, s), Under(cs, s)) {
        var rest := Under(cs[1..], s);
        assert ([Below(c, 1)] + rest)[1..] == rest && [] + rest == rest;
      }
    }
  }

  /** A list that holds each recorded change once, in any order. */
  ghost predicate Lists(cs: seq<Change>, field: string, a: Value, b: Value) {
    DistinctPaths(cs) && forall c :: c in cs <==> Recorded(field, a, b, c)
  }

  lemma ListsUnder(cs: seq<Change>, field: string, a: Value, b: Value, s: Step)
    requires Descends(a, b) && IsStep(a, s) && Has(b, s) && Lists(cs, field, a, b)
    ensures Lists(Under(cs, s), Render(field, s), Child(a, s), Child(b, s))
  {
    UnderDistinct(cs, s);
    forall c ensures c in Under(cs, s) <==> Recorded(Render(field, s), Child(a, s), Child(b, s), c) {
      UnderMembers(cs, s, c);
      RecordedUnder(field, a, b, s, c);
    }
  }

  /** Applied to the old value in any order, the recorded changes make the new value, but for nil against empty. */
  lemma {:induction false} PatchLists(cs: seq<Change>, field: string, a: Value, b: Value)
    requires Safe(a, b) && Aligned(a, b) && Lists(cs, field, a, b)
    ensures Erase(Patch(a, cs)) == Erase(b)
    decreases a
  {
    if Descends(a, b) {
      forall c | c in cs ensures c.path != [] && IsStep(a, c.path[0]) {
        assert Recorded(field, a, b, c);
      }
      PatchByParts(a, cs);
      forall s | IsStep(a, s) ensures Erase(Child(Patch(a, cs), s)) == Erase(Child(b, s)) {
        ListsUnder(cs, field, a, b, s);
        PatchLists(Under(cs, s), Render(field, s), Child(a, s), Child(b, s));
      }
      PatchedParts(a, Patch(a, cs), b);
    } else {
      PatchWhole(cs, field, a, b);
    }
  }

  lemma PatchedParts(a: Value, w: Value, b: Value)
    requires Descends(a, b) && SameNames(a, b) && SameParts(a, w) && forall s | IsStep(a, s) :: Has(b, s)
    requires forall s | IsStep(a, s) :: Has(w, s) && Erase(Child(w, s)) == Erase(Child(b, s))
    ensures Erase(w) == Erase(b)
  {
    forall s ensures IsStep(a, s) <==> IsStep(w, s) {}
    if a.Map? {
      assert |a.entries.Keys| == |a.entries| && |w.entries.Keys| == |w.entries|;
    }
    EraseByParts(w, b);
  }

  lemma PatchWhole(cs: seq<Change>, field: string, a: Value, b: Value)
    requires !Descends(a, b) && Lists(cs, field, a, b)
    ensures Patch(a, cs) == b
  {
    var whole := Change(field, [], a, b);
    forall c ensures c in cs <==> a != b && c == whole {
      assert c in cs <==> Recorded(field, a, b, c);
    }
    assert forall i | 0 <= i < |cs| :: cs[i] in cs;
    if a != b {
      assert whole in cs;
      var last := |cs| - 1;
      assert cs[0] in cs && cs[last] in cs && cs[0] == cs[last];
    }
  }

  lemma DiffLists(order: Order, field: string, a: Value, b: Value)
    requires ValidOrder(order) && Safe(a, b)
    ensures Lists(Diff(order, field, [], a, b), field, a, b)
  {
    DiffDistinct(order, field, [], a, b);
    forall c ensures c in Diff(order, field, [], a, b) <==> Recorded(field, a, b, c) {
      DiffExact(order, field, [], a, b, c);
      assert Below(c, 0) == c;
    }
  }

  lemma PermutationLists(cs: seq<Change>, ds: seq<Change>, field: string, a: Value, b: Value)
    requires multiset(cs) == multiset(ds) && Lists(ds, field, a, b)
    ensures Lists(cs, field, a, b)
  {
    forall c ensures c in cs <==> Recorded(field, a, b, c) {
      assert c in cs <==> c in multiset(cs);
      assert c in ds <==> c in multiset(ds);
    }
    forall i, j | 0 <= i < j < |cs| ensures cs[i].path != cs[j].path {
      CountDistinct(ds, cs[i]);
      assert cs == cs[..j] + cs[j..];
      assert cs[i] in cs[..j] && cs[j] in cs[j..];
      assert cs[i] in multiset(ds) && cs[j] in multiset(ds);
    }
  }

  /** The difference of two values, applied in any order to the old one, makes the new one. */
  lemma DiffThenPatch(order: Order, field: string, a: Value, b: Value, cs: seq<Change>)
    requires ValidOrder(order) && Safe(a, b) && Aligned(a, b)
    requires multiset(cs) == multiset(Diff(order, field, [], a, b))
    ensures Erase(Patch(a, cs)) == Erase(b)
  {
    DiffLists(order, field, a, b);
    PermutationLists(cs, Diff(order, field, [], a, b), field, a, b);
    PatchLists(cs, field, a, b);
  }

  // ---- When the comparison panics ----

  /** The maps at the end of a path have equal sizes, but a key of the old one is missing in the new one. */
  ghost predicate KeyMissing(a: Value, b: Value, q: Path) {
    && Reach(a, b, q)
    && var (x, y) := At(a, b, q);
       x.Map? && y.Map? && |x.entries| == |y.entries| && !(x.entries.Keys <= y.entries.Keys)
  }

  /** The structs at the end of a path have fewer fields in the new value. */
  ghost predicate FieldMissing(a: Value, b: Value, q: Path) {
    && Reach(a, b, q)
    && var (x, y) := At(a, b, q);
       x.Struct? && y.Struct? && |y.fields| < |x.fields|
  }

  /** The comparison panics exactly if a place is reached where a field or a key of the old value is missing. */
  lemma PanicsExactly(a: Value, b: Value)
    ensures !Safe(a, b) <==> exists q :: KeyMissing(a, b, q) || FieldMissing(a, b, q)
  {
    if !Safe(a, b) {
      var _ := FindMissing(a, b);
    }
    forall q | KeyMissing(a, b, q) || FieldMissing(a, b, q) ensures !Safe(a, b) {
      MissingMeansUnsafe(a, b, q);
    }
  }

  lemma {:induction false} FindMissing(a: Value, b: Value) returns (q: Path)
    requires !Safe(a, b)
    ensures KeyMissing(a, b, q) || FieldMissing(a, b, q)
    decreases a
  {
    if s :| IsStep(a, s) && Has(b, s) && !Safe(Child(a, s), Child(b, s)) {
      var r := FindMissing(Child(a, s), Child(b, s));
      q := [s] + r;
      assert q[1..] == r;
    } else {
      var s :| IsStep(a, s) && !Has(b, s);
      q := [];
    }
  }

  lemma {:induction false} MissingMeansUnsafe(a: Value, b: Value, q: Path)
    requires KeyMissing(a, b, q) || FieldMissing(a, b, q)
    ensures !Safe(a, b)
    decreases |q|
  {
    if q != [] {
      MissingMeansUnsafe(Child(a, q[0]), Child(b, q[0]), q[1..]);
    } else if a.Map? {
      var k :| k in a.entries && k !in b.entries;
      assert IsStep(a, KeyStep(k)) && !Has(b, KeyStep(k));
    } else {
      var s := FieldStep(|b.fields|, a.fields[|b.fields|].name);
      assert IsStep(a, s) && !Has(b, s);
    }
  }

  // ---- Values of one type ----

  datatype Type =
    | LeafType(kind: nat)
    | StructType(fields: seq<(string, Type)>)
    | SliceType(elem: Type)
    | MapType(elem: Type)

  ghost predicate HasType(v: Value, t: Type)
    decreases v
  {
    match v
    case Leaf(kind, _) => t == LeafType(kind)
    case Struct(fs) =>
      t.StructType? && |t.fields| == |fs|
      && forall i | 0 <= i < |fs| :: fs[i].name == t.fields[i].0 && HasType(fs[i].value, t.fields[i].1)
    case Slice(_, es) => t.SliceType? && forall i | 0 <= i < |es| :: HasType(es[i], t.elem)
    case Map(_, m) => t.MapType? && forall k | k in m :: HasType(m[k], t.elem)
  }

  function PartType(t: Type, s: Step): Type
    requires match s case FieldStep(i, _) => t.StructType? && i < |t.fields| case _ => t.SliceType? || t.MapType?
  {
    match s
    case FieldStep(i, _) => t.fields[i].1
    case _ => t.elem
  }

  lemma {:induction false} TypedAligned(a: Value, b: Value, t: Type)
    requires HasType(a, t) && HasType(b, t)
    ensures Aligned(a, b)
    decreases a
  {
    forall s | IsStep(a, s) && Has(b, s) ensures Aligned(Child(a, s), Child(b, s)) {
      TypedAligned(Child(a, s), Child(b, s), PartType(t, s));
    }
  }

  lemma {:induction false} AlignedHasNoFieldMissing(a: Value, b: Value, q: Path)
    requires Aligned(a, b)
    ensures !FieldMissing(a, b, q)
    decreases |q|
  {
    if q != [] && Reach(a, b, q) {
      AlignedHasNoFieldMissing(Child(a, q[0]), Child(b, q[0]), q[1..]);
    }
  }

  /**
   For two values of one type the comparison panics exactly if, where maps of equal size are compared, an old key
   is missing. Otherwise it finds nothing exactly if the values are equal, and what it finds, applied in any order,
   makes the new value out of the old one; nil and empty slices and maps count as equal.
   */
  lemma TypedDiff(order: Order, a: Value, b: Value, t: Type, cs: seq<Change>)
    requires ValidOrder(order) && HasType(a, t) && HasType(b, t)
    ensures Safe(a, b) <==> forall q :: !KeyMissing(a, b, q)
    ensures Safe(a, b) ==> (Diff(order, "", [], a, b) == [] <==> Erase(a) == Erase(b))
    ensures Safe(a, b) && multiset(cs) == multiset(Diff(order, "", [], a, b)) ==> Erase(Patch(a, cs)) == Erase(b)
  {
    TypedAligned(a, b, t);
    PanicsExactly(a, b);
    forall q ensures !FieldMissing(a, b, q) {
      AlignedHasNoFieldMissing(a, b, q);
    }
    if Safe(a, b) {
      Completeness(order, "", [], a, b);
      if multiset(cs) == multiset(Diff(order, "", [], a, b)) {
        DiffThenPatch(order, "", a, b, cs);
      }
    }
  }

  // ---- The text of a place identifies it ----

  /** Field names are distinct and free of the marks that separate them, and keys are free of the closing bracket. */
  ghost predicate Readable(v: Value) {
    && (v.Struct? ==> UniqueNames(v) && forall i | 0 <= i < |v.fields| ::
                        v.fields[i].name != "" && '.' !in v.fields[i].name && '[' !in v.fields[i].name)
    && (v.Map? ==> forall k | k in v.entries :: ']' !in k)
    && forall s | IsStep(v, s) :: Readable(Child(v, s))
  }

  ghost predicate UniqueNames(v: Value)
    requires v.Struct?
  {
    forall i, j | 0 <= i < j < |v.fields| :: v.fields[i].name != v.fields[j].name
  }

  ghost predicate Inside(v: Value, q: Path)
    decreases |q|
  {
    q == [] || (IsStep(v, q[0]) && Inside(Child(v, q[0]), q[1..]))
  }

  /** The text of a step; at the beginning a field has no dot. */
  function Piece(first: bool, s: Step): string {
    match s
    case FieldStep(_, name) => if first then name else "." + name
    case IndexStep(i) => "[" + Decimal(i) + "]"
    case KeyStep(k) => "[" + k + "]"
  }

  function Tail(first: bool, q: Path): string
    decreases |q|
  {
    if q == [] then "" else Piece(first, q[0]) + Tail(false, q[1..])
  }

  lemma RenderReadable(field: string, v: Value, s: Step)
    requires Readable(v) && IsStep(v, s)
    ensures Render(field, s) != "" && Render(field, s) == field + Piece(field == "", s)
  {
    hide Decimal;
  }

  lemma {:induction false} RenderIsTail(field: string, v: Value, q: Path)
    requires Readable(v) && Inside(v, q)
    ensures RenderAll(field, q) == field + Tail(field == "", q)
    decreases |q|
  {
    hide Render, Piece;
    if q != [] {
      RenderIsTail(Render(field, q[0]), Child(v, q[0]), q[1..]);
      RenderReadable(field, v, q[0]);
      var piece, rest := Piece(field == "", q[0]), Tail(false, q[1..]);
      assert (field + piece) + rest == field + (piece + rest);
    }
  }

  ghost predicate Unmarked(x: string, marks: set<char>) {
    forall c | c in x :: c !in marks
  }

  /** Texts in front of the first mark are equal if they are the beginning of equal texts. */
  lemma CutUnique(x: string, y: string, u: string, v: string, marks: set<char>)
    requires x + u == y + v && Unmarked(x, marks) && Unmarked(y, marks)
    requires (u == "" || u[0] in marks) && (v == "" || v[0] in marks)
    ensures x == y && u == v
  {
    var t := x + u;
    assert t == y + v;
    assert forall i | 0 <= i < |x| :: t[i] == x[i] && x[i] in x && t[i] !in marks;
    assert forall i | 0 <= i < |y| :: t[i] == y[i] && y[i] in y && t[i] !in marks;
    assert (|x| < |t| ==> t[|x|] == u[0]) && (|y| < |t| ==> t[|y|] == v[0]);
    assert |x| == |y|;
    assert x == t[..|x|] == y && u == t[|x|..] == v;
  }

  predicate MarkStart(u: string) {
    u == "" || u[0] == '.' || u[0] == '['
  }

  lemma TailStart(q: Path)
    ensures MarkStart(Tail(false, q)) && (Tail(false, q) == "" <==> q == [])
  {
  }

  lemma BracketUnique(x: string, y: string, u: string, w: string)
    requires "[" + x + "]" + u == "[" + y + "]" + w && ']' !in x && ']' !in y
    ensures x == y && u == w
  {
    assert ("[" + x + "]" + u)[1..] == x + ("]" + u) && ("[" + y + "]" + w)[1..] == y + ("]" + w);
    CutUnique(x, y, "]" + u, "]" + w, {']'});
    assert ("]" + u)[1..] == u && ("]" + w)[1..] == w;
  }

  lemma NameUnique(first: bool, x: string, y: string, u: string, w: string)
    requires var dot := if first then "" else "."; dot + x + u == dot + y + w
    requires Unmarked(x, {'.', '['}) && Unmarked(y, {'.', '['}) && MarkStart(u) && MarkStart(w)
    ensures x == y && u == w
  {
    var dot := if first then "" else ".";
    assert (dot + x + u)[|dot|..] == x + u && (dot + y + w)[|dot|..] == y + w;
    CutUnique(x, y, u, w, {'.', '['});
  }

  lemma PieceUnique(first: bool, v: Value, s: Step, t: Step, u: string, w: string)
    requires Readable(v) && IsStep(v, s) && IsStep(v, t) && MarkStart(u) && MarkStart(w)
    requires Piece(first, s) + u == Piece(first, t) + w
    ensures s == t && u == w
  {
    match v
    case Struct(_) =>
      assert "" + s.name == s.name && "" + t.name == t.name;
      NameUnique(first, s.name, t.name, u, w);
    case Slice(_, _) =>
      DecimalIsDecimal(s.i);
      DecimalIsDecimal(t.i);
      hide Decimal, Number;
      BracketUnique(Decimal(s.i), Decimal(t.i), u, w);
    case Map(_, _) => BracketUnique(s.key, t.key, u, w);
    case Leaf(_, _) =>
  }

  lemma {:induction false} TailInjective(first: bool, v: Value, q: Path, r: Path)
    requires Readable(v) && Inside(v, q) && Inside(v, r) && Tail(first, q) == Tail(first, r)
    ensures q == r
    decreases |q|
  {
    PieceNotEmpty(first, v, q);
    PieceNotEmpty(first, v, r);
    hide Piece;
    if q != [] && r != [] {
      TailStart(q[1..]);
      TailStart(r[1..]);
      PieceUnique(first, v, q[0], r[0], Tail(false, q[1..]), Tail(false, r[1..]));
      TailInjective(false, Child(v, q[0]), q[1..], r[1..]);
      assert q == [q[0]] + q[1..] && r == [r[0]] + r[1..];
    }
  }

  lemma PieceNotEmpty(first: bool, v: Value, q: Path)
    requires Readable(v) && Inside(v, q)
    ensures Tail(first, q) == "" <==> q == []
  {
  }

  lemma {:induction false} ReachIsInside(a: Value, b: Value, q: Path)
    requires Reach(a, b, q)
    ensures Inside(a, q)
    decreases |q|
  {
    if q != [] {
      ReachIsInside(Child(a, q[0]), Child(b, q[0]), q[1..]);
    }
  }

  lemma PlaceOf(order: Order, a: Value, b: Value, c: Change)
    requires ValidOrder(order) && Safe(a, b) && c in Diff(order, "", [], a, b)
    ensures Inside(a, c.path) && c.field == RenderAll("", c.path)
  {
    DiffExact(order, "", [], a, b, c);
    assert Below(c, 0) == c;
    TextExactly("", c.field, c.path);
    ReachIsInside(a, b, c.path);
  }

  /** In a value with readable names and keys, two changes have the same text only if they have the same place. */
  lemma TextsIdentifyPlaces(order: Order, a: Value, b: Value, c: Change, d: Change)
    requires ValidOrder(order) && Safe(a, b) && Readable(a)
    requires c in Diff(order, "", [], a, b) && d in Diff(order, "", [], a, b)
    ensures c.field == d.field <==> c.path == d.path
  {
    hide Diff, Readable, Tail;
    PlaceOf(order, a, b, c);
    PlaceOf(order, a, b, d);
    RenderIsTail("", a, c.path);
    RenderIsTail("", a, d.path);
    assert forall t: string :: "" + t == t;
    if c.field == d.field {
      TailInjective(true, a, c.path, d.path);
    }
  }

  // ---- The comparison as it runs ----

  predicate SameKind(a: Value, b: Value) {
    match a
    case Leaf(kind, _) => b.Leaf? && b.kind == kind
    case Struct(_) => b.Struct?
    case Slice(_, _) => b.Slice?
    case Map(_, _) => b.Map?
  }

  /** The list that is shared by all calls of one comparison. */
  class ChangeList {
    var changes: seq<Change>

    constructor ()
      ensures changes == []
    {
      changes := [];
    }

    method Append(c: Change)
      modifies this
      ensures changes == old(changes) + [c]
    {
      changes := changes + [c];
    }
  }

  /** The first i parts are compared, and what they differ in has been appended. */
  ghost predicate Compared(order: Order, field: string, p: Path, a: Value, b: Value, i: nat, before: seq<Change>, now: seq<Change>) {
    && ValidOrder(order) && i <= |Steps(order, p, a)|
    && (forall j | 0 <= j < i :: SafeAt(a, b, Steps(order, p, a)[j]))
    && now == before + DiffSteps(order, field, p, a, b, Steps(order, p, a)[..i])
  }

  lemma {:induction false} DiffStepsLast(order: Order, field: string, p: Path, a: Value, b: Value, steps: seq<Step>, s: Step)
    requires ValidOrder(order) && SafeAt(a, b, s) && forall i | 0 <= i < |steps| :: SafeAt(a, b, steps[i])
    ensures DiffSteps(order, field, p, a, b, steps + [s])
              == DiffSteps(order, field, p, a, b, steps) + Diff(order, Render(field, s), p + [s], Child(a, s), Child(b, s))
    decreases |steps|
  {
    if steps == [] {
      assert steps + [s] == [s] && [s][1..] == [];
    } else {
      assert (steps + [s])[1..] == steps[1..] + [s];
      assert SafeAt(a, b, steps[0]);
      DiffStepsLast(order, field, p, a, b, steps[1..], s);
    }
  }

  lemma OneMoreCompared(order: Order, field: string, p: Path, a: Value, b: Value, i: nat,
                        before: seq<Change>, now: seq<Change>, next: seq<Change>)
    requires Compared(order, field, p, a, b, i, before, now) && i < |Steps(order, p, a)|
    requires var s := Steps(order, p, a)[i];
             SafeAt(a, b, s) && next == now + Diff(order, Render(field, s), p + [s], Child(a, s), Child(b, s))
    ensures Compared(order, field, p, a, b, i + 1, before, next)
  {
    hide Diff, DiffSteps, SafeAt;
    var steps := Steps(order, p, a);
    DiffStepsLast(order, field, p, a, b, steps[..i], steps[i]);
    assert steps[..i] + [steps[i]] == steps[..i + 1];
  }

  lemma AllCompared(order: Order, field: string, p: Path, a: Value, b: Value, before: seq<Change>, now: seq<Change>)
    requires ValidOrder(order) && Descends(a, b)
    requires Compared(order, field, p, a, b, |Steps(order, p, a)|, before, now)
    ensures Safe(a, b) && now == before + Diff(order, field, p, a, b)
  {
    var steps := Steps(order, p, a);
    assert steps[..|steps|] == steps;
    forall s | IsStep(a, s) ensures SafeAt(a, b, s) {
      assert s in steps;
    }
  }

  /** Looks up one part in both values and compares it; a missing part panics. */
  method ComparePart(list: ChangeList, order: Order, field: string, p: Path, a: Value, b: Value, s: Step)
    returns (ok: bool)
    requires ValidOrder(order) && IsStep(a, s)
    modifies list
    ensures ok <==> SafeAt(a, b, s)
    ensures ok ==> list.changes == old(list.changes) + Diff(order, Render(field, s), p + [s], Child(a, s), Child(b, s))
    decreases a, 0
  {
    if !Has(b, s) {
      return false;
    }
    ok := CompareFields(list, order, Render(field, s), p + [s], Child(a, s), Child(b, s));
  }

  /** Appends what differs between two values to the list; not `ok` says that it panicked. */
  method CompareFields(list: ChangeList, order: Order, field: string, p: Path, a: Value, b: Value) returns (ok: bool)
    requires ValidOrder(order)
    modifies list
    ensures ok <==> Safe(a, b)
    ensures ok ==> list.changes == old(list.changes) + Diff(order, field, p, a, b)
    decreases a, 1
  {
    if !SameKind(a, b) {
      list.Append(Change(field, p, a, b));
      return true;
    }
    ghost var before := list.changes;
    match a
    case Struct(fs) =>
      for i := 0 to |fs|
        invariant Compared(order, field, p, a, b, i, before, list.changes)
      {
        ghost var now := list.changes;
        ok := ComparePart(list, order, field, p, a, b, FieldStep(i, fs[i].name));
        if !ok {
          return;
        }
        OneMoreCompared(order, field, p, a, b, i, before, now, list.changes);
      }
      AllCompared(order, field, p, a, b, before, list.changes);
      ok := true;
    case Slice(_, es) =>
      if |es| != |b.elems| {
        list.Append(Change(field, p, a, b));
        return true;
      }
      for i := 0 to |es|
        invariant Compared(order, field, p, a, b, i, before, list.changes)
      {
        ghost var now := list.changes;
        ok := ComparePart(list, order, field, p, a, b, IndexStep(i));
        if !ok {
          return;
        }
        OneMoreCompared(order, field, p, a, b, i, before, now, list.changes);
      }
      AllCompared(order, field, p, a, b, before, list.changes);
      ok := true;
    case Map(_, m) =>
      if |m| != |b.entries| {
        list.Append(Change(field, p, a, b));
        return true;
      }
      var keys := order(p, m.Keys);
      for i := 0 to |keys|
        invariant Compared(order, field, p, a, b, i, before, list.changes)
      {
        ghost var now := list.changes;
        assert Steps(order, p, a)[i] == KeyStep(keys[i]);
        ok := ComparePart(list, order, field, p, a, b, KeyStep(keys[i]));
        if !ok {
          return;
        }
        OneMoreCompared(order, field, p, a, b, i, before, now, list.changes);
      }
      AllCompared(order, field, p, a, b, before, list.changes);
      ok := true;
    case Leaf(_, _) =>
      if a != b {
        list.Append(Change(field, p, a, b));
      }
      ok := true;
  }

  /** No two fields have this name; a struct type has several fields of one name only if they are blank. */
  ghost predicate AtMostOne(fs: seq<Field>, name: string) {
    forall i, j | 0 <= i < j < |fs| :: !(fs[i].name == name && fs[j].name == name)
  }

  /**
   The difference of the field `Status` of two objects, which is looked up by position in the new one; without
   such a field there is none. A panic returns nothing: an old object that is no struct, or a missing part.
   */
  method GetChangedStatusFields(order: Order, oldObj: Value, newObj: Value) returns (r: Option<seq<Change>>)
    requires ValidOrder(order) && (oldObj.Struct? ==> AtMostOne(oldObj.fields, "Status"))
    ensures !oldObj.Struct? ==> r == None
    ensures oldObj.Struct? && (forall i | 0 <= i < |oldObj.fields| :: oldObj.fields[i].name != "Status") ==> r == Some([])
    ensures oldObj.Struct? ==> forall i | 0 <= i < |oldObj.fields| && oldObj.fields[i].name == "Status" ::
              var s := FieldStep(i, "Status");
              r == if SafeAt(oldObj, newObj, s) then Some(Diff(order, "", [], Child(oldObj, s), Child(newObj, s))) else None
    ensures oldObj.Struct? && r.Some? ==> forall i | 0 <= i < |oldObj.fields| && oldObj.fields[i].name == "Status" ::
              var s := FieldStep(i, "Status");
              Has(newObj, s) && Lists(r.value, "", Child(oldObj, s), Child(newObj, s))
  {
    if !oldObj.Struct? {
      return None;
    }
    var list := new ChangeList();
    var fs := oldObj.fields;
    for i := 0 to |fs|
      invariant (forall j | 0 <= j < i :: fs[j].name != "Status") ==> list.changes == []
      invariant forall j | 0 <= j < i && fs[j].name == "Status" ::
                  var s := FieldStep(j, "Status");
                  SafeAt(oldObj, newObj, s) && list.changes == Diff(order, "", [], Child(oldObj, s), Child(newObj, s))
    {
      if fs[i].name == "Status" {
        assert forall j | 0 <= j < i :: fs[j].name != fs[i].name;
        var s := FieldStep(i, "Status");
        if !Has(newObj, s) {
          return None;
        }
        var ok := CompareFields(list, order, "", [], Child(oldObj, s), Child(newObj, s));
        if !ok {
          return None;
        }
      }
    }
    r := Some(list.changes);
    forall i | 0 <= i < |fs| && fs[i].name == "Status"
      ensures var s := FieldStep(i, "Status");
              Has(newObj, s) && Lists(list.changes, "", Child(oldObj, s), Child(newObj, s)) {
      var s := FieldStep(i, "Status");
      DiffLists(order, "", Child(oldObj, s), Child(newObj, s));
    }
  }
}
