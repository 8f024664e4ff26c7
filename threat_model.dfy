/**
  Vocabulary shared by both threat engines: the six STRIDE categories and the
  two kinds of record the user declares in the wizard, data flows and trust
  boundaries.
 */
module ThreatModel {

  datatype Option<+T> = None | Some(value: T)

  /** STRIDE. Every threat both engines emit has exactly one category; its
      "type" and "stride" entries always carry the same name. */
  datatype Category =
    | Spoofing
    | Tampering
    | Repudiation
    | InformationDisclosure
    | DenialOfService
    | ElevationOfPrivilege

  /** Position of a category in S, T, R, I, D, E order. */
  function Rank(k: Category): (r: nat)
    ensures r < 6
  {
    match k
    case Spoofing => 0
    case Tampering => 1
    case Repudiation => 2
    case InformationDisclosure => 3
    case DenialOfService => 4
    case ElevationOfPrivilege => 5
  }

  /** The name written into a threat's "type" and "stride" entries. */
  function Name(k: Category): string {
    match k
    case Spoofing => "Spoofing"
    case Tampering => "Tampering"
    case Repudiation => "Repudiation"
    case InformationDisclosure => "Information Disclosure"
    case DenialOfService => "Denial of Service"
    case ElevationOfPrivilege => "Elevation of Privilege"
  }

  /** One directed edge of the data-flow diagram, fields as typed by the user. */
  datatype DataFlow = DataFlow(source: string, destination: string, dataType: string)

  /** A named security perimeter, fields as typed by the user. */
  datatype TrustBoundary = TrustBoundary(name: string, description: string)

  /** The wizard admits a data flow only with all three fields filled in. */
  predicate CompleteFlow(f: DataFlow) {
    f.source != "" && f.destination != "" && f.dataType != ""
  }

  /** The threats of a list of entities: each entity's threats under `rule`,
      entities in list order (every loop over flows, boundaries or diagram components). */
  function Concat<T, U>(rule: T -> seq<U>, xs: seq<T>): seq<U> {
    if xs == [] then [] else Concat(rule, xs[..|xs| - 1]) + rule(xs[|xs| - 1])
  }

  /** One more loop iteration appends the next entity's threats. */
  lemma ConcatPrefix<T, U>(rule: T -> seq<U>, xs: seq<T>, i: nat)
    requires i < |xs|
    ensures Concat(rule, xs[..i + 1]) == Concat(rule, xs[..i]) + rule(xs[i])
  {
    assert xs[..i + 1][..i] == xs[..i];
  }

  /** Entities are analysed independently and in list order. */
  lemma {:induction false} ConcatAppend<T, U>(rule: T -> seq<U>, a: seq<T>, b: seq<T>)
    ensures Concat(rule, a + b) == Concat(rule, a) + Concat(rule, b)
    decreases |b|
  {
    if b == [] {
      assert a + b == a;
    } else {
      var last := |b| - 1;
      var ab := a + b;
      assert ab[..|ab| - 1] == a + b[..last];
      assert ab[|ab| - 1] == b[last];
      ConcatAppend(rule, a, b[..last]);
    }
  }

  /** Per-entity lower bounds on the number of threats add up. */
  lemma {:induction false} ConcatAtLeast<T, U>(rule: T -> seq<U>, xs: seq<T>, lo: nat)
    requires forall x <- xs :: lo <= |rule(x)|
    ensures lo * |xs| <= |Concat(rule, xs)|
  {
    if xs != [] {
      var init, last := xs[..|xs| - 1], xs[|xs| - 1];
      assert forall x <- init :: x in xs;
      ConcatAtLeast(rule, init, lo);
      assert lo <= |rule(last)| by {
        assert last in xs;
      }
      var n := |init|;
      assert lo * (n + 1) == lo * n + lo;
    }
  }

  /** Per-entity upper bounds on the number of threats add up. */
  lemma {:induction false} ConcatAtMost<T, U>(rule: T -> seq<U>, xs: seq<T>, hi: nat)
    requires forall x <- xs :: |rule(x)| <= hi
    ensures |Concat(rule, xs)| <= hi * |xs|
  {
    if xs != [] {
      var init, last := xs[..|xs| - 1], xs[|xs| - 1];
      assert forall x <- init :: x in xs;
      ConcatAtMost(rule, init, hi);
      assert |rule(last)| <= hi by {
        assert last in xs;
      }
      var n := |init|;
      assert hi * (n + 1) == hi * n + hi;
    }
  }

  /** Every threat of the list comes from one of its entities. */
  lemma {:induction false} ConcatMember<T, U>(rule: T -> seq<U>, xs: seq<T>, t: U)
    requires t in Concat(rule, xs)
    ensures exists x <- xs :: t in rule(x)
  {
    var init := xs[..|xs| - 1];
    if t in Concat(rule, init) {
      ConcatMember(rule, init, t);
      var x :| x in init && t in rule(x);
      assert x in xs;
    } else {
      assert xs[|xs| - 1] in xs;
    }
  }

  /** Every threat of every entity is in the list. */
  lemma {:induction false} ConcatIncludes<T, U>(rule: T -> seq<U>, xs: seq<T>, x: T, t: U)
    requires x in xs && t in rule(x)
    ensures t in Concat(rule, xs)
  {
    var init, last := xs[..|xs| - 1], xs[|xs| - 1];
    if x != last {
      assert x in init by {
        var k :| 0 <= k < |xs| && xs[k] == x;
        assert init[k] == x;
      }
      ConcatIncludes(rule, init, x, t);
    }
  }

  /** Regrouping appends, stated once so that loop proofs need not rediscover it. */
  lemma AppendAssoc<U>(a: seq<U>, b: seq<U>, c: seq<U>)
    ensures a + b + c == a + (b + c)
  {
  }
}
