/**
  The STRIDE engine of threat_modeling_app.py (`analyze_threats`): seven fixed
  example threats for the e-commerce system, then per-flow and per-boundary
  rules. Every threat is numbered by the `add_threat` counter ("T1", "T2", ...)
  and placed on a data-flow-diagram element: an edge label
  "source → destination" or a node or boundary name.

  The specification is the function `Analysis`: the list of emissions (what
  each `add_threat` call is asked to record) numbered in order. The method
  `AnalyzeThreats` is the source's construction through the `ThreatLog`
  object, whose counter and list play the roles of `threat_counter` and
  `threats`; it is proved to produce exactly `Analysis`.
 */
module TutorialEngine {
  import opened Text
  import opened ThreatModel

  /** The arrow that separates the two ends of an edge label. */
  const Arrow: char := '\U{2192}'

  /** The diagram element of a flow: "source → destination", in the case the user typed. */
  function EdgeLabel(source: string, destination: string): string {
    source + [' ', Arrow, ' '] + destination
  }

  /** An edge label is its source, the arrow between two blanks, then its destination. */
  lemma EdgeLabelShape(source: string, destination: string)
    ensures var r := EdgeLabel(source, destination);
      && |r| == |source| + 3 + |destination|
      && r[..|source|] == source
      && r[|source|] == ' ' && r[|source| + 1] == Arrow && r[|source| + 2] == ' '
      && r[|source| + 3..] == destination
      && Arrow in r
  {
    var r := EdgeLabel(source, destination);
    assert r[|source| + 1] == Arrow;
  }

  /** When sources carry no arrow, an edge label determines its flow's two ends. */
  lemma EdgeLabelInjective(s1: string, d1: string, s2: string, d2: string)
    requires Arrow !in s1 && Arrow !in s2
    ensures EdgeLabel(s1, d1) == EdgeLabel(s2, d2) <==> s1 == s2 && d1 == d2
  {
    if EdgeLabel(s1, d1) == EdgeLabel(s2, d2) {
      EdgeLabelShape(s1, d1);
      EdgeLabelShape(s2, d2);
    }
  }

  /** Which rule a threat comes from. The strings are the lower-cased values the
      rule writes into the threat's description. */
  datatype Origin =
    | Example(index: nat)
    | FromFlow(source: string, destination: string, dataType: string)
    | FromBoundary(name: string)

  /** The arguments of one `add_threat` call (the prose texts are fixed per rule). */
  datatype Emission = Emission(kind: Category, origin: Origin, dfdElement: string, controls: Option<string>)

  /** A recorded threat: its id, category, rule, diagram element and, when given, its controls. */
  datatype Threat = Threat(id: string, kind: Category, origin: Origin, dfdElement: string,
                           controls: Option<string>)

  /** The id written for counter value n. */
  function Id(n: nat): string {
    "T" + Decimal(n)
  }

  /** Distinct counter values give distinct ids. */
  lemma IdInjective(a: nat, b: nat)
    ensures Id(a) == Id(b) <==> a == b
  {
    if Id(a) == Id(b) {
      assert Decimal(a) == Id(a)[1..] == Id(b)[1..] == Decimal(b);
      DecimalInjective(a, b);
    }
  }

  /** Python truthiness of the optional controls argument. */
  predicate Truthy(controls: Option<string>) {
    controls.Some? && controls.value != ""
  }

  /** What `add_threat` records for emission e when the counter is n. */
  function Record(e: Emission, n: nat): Threat {
    Threat(Id(n), e.kind, e.origin, e.dfdElement, if Truthy(e.controls) then e.controls else None)
  }

  /** Emissions numbered by a counter that starts at 1. */
  function Numbered(es: seq<Emission>): (r: seq<Threat>)
    ensures |r| == |es|
  {
    seq(|es|, i requires 0 <= i < |es| => Record(es[i], i + 1))
  }

  /** Recording one more emission appends its record, numbered after the others. */
  lemma NumberedSnoc(es: seq<Emission>, e: Emission)
    ensures Numbered(es + [e]) == Numbered(es) + [Record(e, |es| + 1)]
  {
    var l, r := Numbered(es + [e]), Numbered(es) + [Record(e, |es| + 1)];
    forall i | 0 <= i < |l| ensures l[i] == r[i] {
      if i < |es| {
        assert (es + [e])[i] == es[i];
      }
    }
  }

  /** Numbering keeps each emission's category, rule, element and controls, and gives
      the k-th threat the id T(k+1): ids are unique and follow emission order. */
  lemma NumberedSpec(es: seq<Emission>)
    ensures var r := Numbered(es);
      && (forall i :: 0 <= i < |r| ==> r[i].id == Id(i + 1))
      && (forall i :: 0 <= i < |r| ==>
            r[i].kind == es[i].kind && r[i].origin == es[i].origin && r[i].dfdElement == es[i].dfdElement)
      && (forall i, j :: 0 <= i < |r| && 0 <= j < |r| ==> (r[i].id == r[j].id <==> i == j))
  {
    var r := Numbered(es);
    forall i, j | 0 <= i < |r| && 0 <= j < |r| ensures r[i].id == r[j].id <==> i == j {
      IdInjective(i + 1, j + 1);
    }
  }

  // ---------------------------------------------------------------------------
  // Rules

  /** The seven example threats every analysis starts with. */
  const ExampleEmissions: seq<Emission> := [
    Emission(Spoofing, Example(0), "Frontend \U{2192} Backend",
             Some("Use MFA (e.g., TOTP) and HTTP-only, Secure cookies.")),
    Emission(Tampering, Example(1), "Frontend \U{2192} Backend",
             Some("Use HMAC-SHA256 for data integrity and whitelist input validation.")),
    Emission(Repudiation, Example(2), "Backend \U{2192} Database",
             Some("Use AWS CloudTrail for logging and ensure log integrity.")),
    Emission(InformationDisclosure, Example(3), "Backend \U{2192} Database",
             Some("Enable TLS 1.3 and use AES-256 for database encryption.")),
    Emission(InformationDisclosure, Example(4), "Backend \U{2192} Payment Gateway",
             Some("Use TLS 1.3 and OAuth 2.0 for Stripe API.")),
    Emission(DenialOfService, Example(5), "Frontend \U{2192} Backend",
             Some("Configure rate limiting (100 requests/min) and use AWS CloudFront.")),
    Emission(ElevationOfPrivilege, Example(6), "Backend",
             Some("Use AWS IAM roles with least privilege."))
  ]

  function When(fires: bool, e: Emission): seq<Emission> {
    if fires then [e] else []
  }

  /** The rules for one flow: Spoofing on a user or client source, Tampering always,
      Information Disclosure on PII or sensitive data; all on the flow's edge. */
  function FlowEmissions(f: DataFlow): seq<Emission> {
    var dataType, source, destination := Lower(f.dataType), Lower(f.source), Lower(f.destination);
    var edge := EdgeLabel(f.source, f.destination);
    var o := FromFlow(source, destination, dataType);
    When(Contains(source, "user") || Contains(source, "client"),
         Emission(Spoofing, o, edge, Some("Use OAuth 2.0 with PKCE and RS256 JWT signing.")))
    + [FlowTampering(f)]
    + When(Contains(dataType, "pii") || Contains(dataType, "sensitive"),
           Emission(InformationDisclosure, o, edge, Some("Use TLS 1.3 and data masking for logs.")))
  }

  /** The one flow rule that always fires. */
  function FlowTampering(f: DataFlow): (e: Emission)
    ensures e.kind == Tampering && e.dfdElement == EdgeLabel(f.source, f.destination)
  {
    Emission(Tampering, FromFlow(Lower(f.source), Lower(f.destination), Lower(f.dataType)),
             EdgeLabel(f.source, f.destination), Some("Apply HMAC-SHA256 and schema-based validation."))
  }

  /** The rules for one boundary: Spoofing on a "boundary" or "frontend" name,
      Tampering on a "database" or "backend" name; both on the boundary's own name. */
  function BoundaryEmissions(b: TrustBoundary): seq<Emission> {
    var name := Lower(b.name);
    var o := FromBoundary(name);
    When(Contains(name, "boundary") || Contains(name, "frontend"),
         Emission(Spoofing, o, b.name, Some("Use mutual TLS with client certificates.")))
    + When(Contains(name, "database") || Contains(name, "backend"),
           Emission(Tampering, o, b.name, Some("Apply SHA-256 checksums and OWASP guidelines.")))
  }

  /** Every `add_threat` call of one run, in call order. */
  function Emissions(flows: seq<DataFlow>, boundaries: seq<TrustBoundary>): seq<Emission> {
    ExampleEmissions + Concat(FlowEmissions, flows) + Concat(BoundaryEmissions, boundaries)
  }

  /** The threat list `analyze_threats` returns. */
  function Analysis(flows: seq<DataFlow>, boundaries: seq<TrustBoundary>): seq<Threat> {
    Numbered(Emissions(flows, boundaries))
  }

  ghost predicate InStrideOrder(es: seq<Emission>) {
    forall i, j :: 0 <= i < j < |es| ==> Rank(es[i].kind) < Rank(es[j].kind)
  }

  /** Some emission of `es` has category `k`. */
  predicate Emits(es: seq<Emission>, k: Category) {
    exists e <- es :: e.kind == k
  }

  lemma EmitsAppend(a: seq<Emission>, b: seq<Emission>, k: Category)
    ensures Emits(a + b, k) <==> Emits(a, k) || Emits(b, k)
  {
    if Emits(a + b, k) {
      var e :| e in a + b && e.kind == k;
      assert e in a || e in b;
    }
    if Emits(b, k) {
      var e :| e in b && e.kind == k;
      assert e in a + b;
    }
  }

  lemma EmitsWhen(fires: bool, e: Emission, k: Category)
    ensures Emits(When(fires, e), k) <==> fires && e.kind == k
  {
    if fires && e.kind == k {
      assert When(fires, e)[0] == e;
    }
  }

  /** A flow yields one to three emissions, in STRIDE order, all on the flow's edge,
      all attributed to the flow and all with controls. */
  lemma FlowEmissionsShape(f: DataFlow)
    ensures var r := FlowEmissions(f);
      && 1 <= |r| <= 3
      && InStrideOrder(r)
      && forall e <- r ::
           && e.dfdElement == EdgeLabel(f.source, f.destination)
           && e.origin == FromFlow(Lower(f.source), Lower(f.destination), Lower(f.dataType))
           && Truthy(e.controls)
  {
  }

  /** Which flow rule fires for which flow; no other category ever does. */
  lemma FlowEmissionsFire(f: DataFlow)
    ensures var r, source, dataType := FlowEmissions(f), Lower(f.source), Lower(f.dataType);
      && (Emits(r, Spoofing) <==> Occurs("user", source) || Occurs("client", source))
      && Emits(r, Tampering)
      && (Emits(r, InformationDisclosure) <==> Occurs("pii", dataType) || Occurs("sensitive", dataType))
      && !Emits(r, Repudiation) && !Emits(r, DenialOfService) && !Emits(r, ElevationOfPrivilege)
  {
    var dataType, source, destination := Lower(f.dataType), Lower(f.source), Lower(f.destination);
    var edge := EdgeLabel(f.source, f.destination);
    var o := FromFlow(source, destination, dataType);
    var fs := Contains(source, "user") || Contains(source, "client");
    var fi := Contains(dataType, "pii") || Contains(dataType, "sensitive");
    var es := Emission(Spoofing, o, edge, Some("Use OAuth 2.0 with PKCE and RS256 JWT signing."));
    var et := Emission(Tampering, o, edge, Some("Apply HMAC-SHA256 and schema-based validation."));
    var ei := Emission(InformationDisclosure, o, edge, Some("Use TLS 1.3 and data masking for logs."));
    assert FlowEmissions(f) == When(fs, es) + When(true, et) + When(fi, ei);
    ContainsIffOccurs(source, "user"); ContainsIffOccurs(source, "client");
    ContainsIffOccurs(dataType, "pii"); ContainsIffOccurs(dataType, "sensitive");
    forall k ensures Emits(FlowEmissions(f), k) <==>
      (fs && k == Spoofing) || k == Tampering || (fi && k == InformationDisclosure)
    {
      EmitsAppend(When(fs, es), When(true, et), k);
      EmitsAppend(When(fs, es) + When(true, et), When(fi, ei), k);
      EmitsWhen(fs, es, k);
      EmitsWhen(true, et, k);
      EmitsWhen(fi, ei, k);
    }
  }

  /** A boundary yields at most two emissions, in STRIDE order, all on the boundary's
      name, all attributed to the boundary and all with controls. */
  lemma BoundaryEmissionsShape(b: TrustBoundary)
    ensures var r := BoundaryEmissions(b);
      && |r| <= 2
      && InStrideOrder(r)
      && forall e <- r ::
           e.dfdElement == b.name && e.origin == FromBoundary(Lower(b.name)) && Truthy(e.controls)
  {
  }

  /** Which boundary rule fires for which name; no other category ever does. */
  lemma BoundaryEmissionsFire(b: TrustBoundary)
    ensures var r, name := BoundaryEmissions(b), Lower(b.name);
      && (Emits(r, Spoofing) <==> Occurs("boundary", name) || Occurs("frontend", name))
      && (Emits(r, Tampering) <==> Occurs("database", name) || Occurs("backend", name))
      && !Emits(r, Repudiation) && !Emits(r, InformationDisclosure)
      && !Emits(r, DenialOfService) && !Emits(r, ElevationOfPrivilege)
  {
    var name := Lower(b.name);
    var o := FromBoundary(name);
    var fs := Contains(name, "boundary") || Contains(name, "frontend");
    var ft := Contains(name, "database") || Contains(name, "backend");
    var es := Emission(Spoofing, o, b.name, Some("Use mutual TLS with client certificates."));
    var et := Emission(Tampering, o, b.name, Some("Apply SHA-256 checksums and OWASP guidelines."));
    assert BoundaryEmissions(b) == When(fs, es) + When(ft, et);
    ContainsIffOccurs(name, "boundary"); ContainsIffOccurs(name, "frontend");
    ContainsIffOccurs(name, "database"); ContainsIffOccurs(name, "backend");
    forall k ensures Emits(BoundaryEmissions(b), k) <==> (fs && k == Spoofing) || (ft && k == Tampering) {
      EmitsAppend(When(fs, es), When(ft, et), k);
      EmitsWhen(fs, es, k);
      EmitsWhen(ft, et, k);
    }
  }

  /** The boundary description never affects which rules fire. */
  lemma BoundaryIgnoresDescription(name: string, d1: string, d2: string)
    ensures BoundaryEmissions(TrustBoundary(name, d1)) == BoundaryEmissions(TrustBoundary(name, d2))
  {
  }

  // ---------------------------------------------------------------------------
  // Properties of the whole run

  /** The seven examples each carry controls. */
  lemma ExampleEmissionsControlled()
    ensures |ExampleEmissions| == 7
    ensures forall e <- ExampleEmissions :: Truthy(e.controls)
  {
  }

  /** Between them the seven examples cover all six STRIDE categories. */
  lemma ExampleEmissionsCoverStride(k: Category)
    ensures Emits(ExampleEmissions, k)
  {
    var i := match k
      case Spoofing => 0
      case Tampering => 1
      case Repudiation => 2
      case InformationDisclosure => 3
      case DenialOfService => 5
      case ElevationOfPrivilege => 6;
    assert ExampleEmissions[i] in ExampleEmissions;
  }

  /** The first six examples sit on diagram edges, the seventh on the "Backend" node. */
  lemma ExampleEmissionsPlaced()
    ensures forall i :: 0 <= i < 6 ==> Arrow in ExampleEmissions[i].dfdElement
    ensures Arrow !in ExampleEmissions[6].dfdElement
  {
    forall i | 0 <= i < 6 ensures Arrow in ExampleEmissions[i].dfdElement {
      if i == 0 || i == 1 || i == 5 {
        assert ExampleEmissions[i].dfdElement[9] == Arrow;
      } else {
        assert ExampleEmissions[i].dfdElement[8] == Arrow;
      }
    }
  }

  /** Every run starts with the same seven threats T1..T7, the recorded examples. */
  lemma AnalysisStartsWithExamples(flows: seq<DataFlow>, boundaries: seq<TrustBoundary>)
    ensures var r := Analysis(flows, boundaries);
      |r| >= 7 && forall i :: 0 <= i < 7 ==> r[i] == Record(ExampleEmissions[i], i + 1)
  {
    var es := Emissions(flows, boundaries);
    assert es[..7] == ExampleEmissions;
    forall i | 0 <= i < 7 ensures es[i] == ExampleEmissions[i] {
      assert es[..7][i] == es[i];
    }
  }

  /** Seven examples, one to three threats per flow, at most two per boundary. */
  lemma AnalysisCount(flows: seq<DataFlow>, boundaries: seq<TrustBoundary>)
    ensures 7 + |flows| <= |Analysis(flows, boundaries)| <= 7 + 3 * |flows| + 2 * |boundaries|
  {
    forall f <- flows ensures 1 <= |FlowEmissions(f)| <= 3 {
      FlowEmissionsShape(f);
    }
    forall b <- boundaries ensures 0 <= |BoundaryEmissions(b)| <= 2 {
      BoundaryEmissionsShape(b);
    }
    ConcatAtLeast(FlowEmissions, flows, 1);
    ConcatAtMost(FlowEmissions, flows, 3);
    ConcatAtMost(BoundaryEmissions, boundaries, 2);
    assert |Emissions(flows, boundaries)| ==
      7 + |Concat(FlowEmissions, flows)| + |Concat(BoundaryEmissions, boundaries)|;
  }

  /** Every `add_threat` call of a run passes controls. */
  lemma EmissionsControlled(flows: seq<DataFlow>, boundaries: seq<TrustBoundary>)
    ensures forall e <- Emissions(flows, boundaries) :: Truthy(e.controls)
  {
    ExampleEmissionsControlled();
    var fe, be := Concat(FlowEmissions, flows), Concat(BoundaryEmissions, boundaries);
    forall e <- fe ensures Truthy(e.controls) {
      ConcatMember(FlowEmissions, flows, e);
      var f :| f in flows && e in FlowEmissions(f);
      FlowEmissionsShape(f);
    }
    forall e <- be ensures Truthy(e.controls) {
      ConcatMember(BoundaryEmissions, boundaries, e);
      var b :| b in boundaries && e in BoundaryEmissions(b);
      BoundaryEmissionsShape(b);
    }
    assert Emissions(flows, boundaries) == ExampleEmissions + fe + be;
  }

  /** Numbering keeps controls that were given. */
  lemma NumberedControlled(es: seq<Emission>)
    requires forall e <- es :: Truthy(e.controls)
    ensures forall t <- Numbered(es) :: Truthy(t.controls)
  {
    var r := Numbered(es);
    forall t <- r ensures Truthy(t.controls) {
      var i :| 0 <= i < |r| && r[i] == t;
      assert es[i] in es;
    }
  }

  /** So every recorded threat carries its controls. */
  lemma AnalysisAllControlled(flows: seq<DataFlow>, boundaries: seq<TrustBoundary>)
    ensures forall t <- Analysis(flows, boundaries) :: t.controls.Some? && t.controls.value != ""
  {
    EmissionsControlled(flows, boundaries);
    NumberedControlled(Emissions(flows, boundaries));
  }

  /** Ids are T1..Tn in emission order, each used once. */
  lemma AnalysisIds(flows: seq<DataFlow>, boundaries: seq<TrustBoundary>)
    ensures var r := Analysis(flows, boundaries);
      && (forall i :: 0 <= i < |r| ==> r[i].id == "T" + Decimal(i + 1))
      && (forall i, j :: 0 <= i < |r| && 0 <= j < |r| ==> (r[i].id == r[j].id <==> i == j))
  {
    NumberedSpec(Emissions(flows, boundaries));
  }

  /** The flow rules' emissions follow the seven examples. */
  lemma EmissionsAfterExamples(flows: seq<DataFlow>, boundaries: seq<TrustBoundary>, j: nat)
    requires j < |Concat(FlowEmissions, flows)|
    ensures 7 + j < |Emissions(flows, boundaries)|
    ensures Emissions(flows, boundaries)[7 + j] == Concat(FlowEmissions, flows)[j]
  {
    ExampleEmissionsControlled();
  }

  /** Every flow of the session gets its Tampering threat on its own edge. */
  lemma EveryFlowOnItsEdge(flows: seq<DataFlow>, boundaries: seq<TrustBoundary>, f: DataFlow)
    requires f in flows
    ensures exists t <- Analysis(flows, boundaries) ::
      t.kind == Tampering && t.dfdElement == EdgeLabel(f.source, f.destination)
  {
    var et := FlowTampering(f);
    ConcatIncludes(FlowEmissions, flows, f, et);
    var fe := Concat(FlowEmissions, flows);
    var j :| 0 <= j < |fe| && fe[j] == et;
    EmissionsAfterExamples(flows, boundaries, j);
    var r := Analysis(flows, boundaries);
    assert r[7 + j] == Record(et, 8 + j);
    assert r[7 + j] in r;
  }

  // ---------------------------------------------------------------------------
  // The source's construction

  /** The state `add_threat` closes over: the threat list and the id counter. */
  class ThreatLog {
    var threats: seq<Threat>
    var counter: nat
    ghost var emitted: seq<Emission>

    /** The list holds the emissions so far, numbered; the counter is the next id. */
    ghost predicate Valid()
      reads this
    {
      threats == Numbered(emitted) && counter == |emitted| + 1
    }

    constructor ()
      ensures Valid() && emitted == []
    {
      threats := [];
      counter := 1;
      emitted := [];
    }

    /** `add_threat`: record the threat under id T<counter>, with controls only when
        they are truthy, then advance the counter. */
    method Add(kind: Category, origin: Origin, dfdElement: string, controls: Option<string>)
      requires Valid()
      modifies this
      ensures Valid()
      ensures emitted == old(emitted) + [Emission(kind, origin, dfdElement, controls)]
      ensures threats == old(threats) + [Record(Emission(kind, origin, dfdElement, controls), old(counter))]
      ensures counter == old(counter) + 1
    {
      var threat := Threat("T" + Decimal(counter), kind, origin, dfdElement, None);
      if controls.Some? && controls.value != "" {
        threat := threat.(controls := controls);
      }
      NumberedSnoc(emitted, Emission(kind, origin, dfdElement, controls));
      threats := threats + [threat];
      counter := counter + 1;
      emitted := emitted + [Emission(kind, origin, dfdElement, controls)];
    }
  }

  /** The body of the flow loop. */
  method AddFlowThreats(log: ThreatLog, flow: DataFlow)
    requires log.Valid()
    modifies log
    ensures log.Valid()
    ensures log.emitted == old(log.emitted) + FlowEmissions(flow)
  {
    var dataType := Lower(flow.dataType);
    var source := Lower(flow.source);
    var destination := Lower(flow.destination);
    var edgeKey := flow.source + " \U{2192} " + flow.destination;
    var origin := FromFlow(source, destination, dataType);
    assert edgeKey == EdgeLabel(flow.source, flow.destination);
    ghost var spoofs := Contains(source, "user") || Contains(source, "client");
    ghost var discloses := Contains(dataType, "pii") || Contains(dataType, "sensitive");
    ghost var es := Emission(Spoofing, origin, edgeKey, Some("Use OAuth 2.0 with PKCE and RS256 JWT signing."));
    ghost var et := Emission(Tampering, origin, edgeKey, Some("Apply HMAC-SHA256 and schema-based validation."));
    ghost var ei := Emission(InformationDisclosure, origin, edgeKey, Some("Use TLS 1.3 and data masking for logs."));
    assert FlowEmissions(flow) == When(spoofs, es) + [et] + When(discloses, ei);
    ghost var e0 := log.emitted;
    if Contains(source, "user") || Contains(source, "client") {
      log.Add(Spoofing, origin, edgeKey, Some("Use OAuth 2.0 with PKCE and RS256 JWT signing."));
    }
    assert log.emitted == e0 + When(spoofs, es);
    ghost var e1 := log.emitted;
    log.Add(Tampering, origin, edgeKey, Some("Apply HMAC-SHA256 and schema-based validation."));
    assert log.emitted == e1 + [et];
    ghost var e2 := log.emitted;
    if Contains(dataType, "pii") || Contains(dataType, "sensitive") {
      log.Add(InformationDisclosure, origin, edgeKey, Some("Use TLS 1.3 and data masking for logs."));
    }
    assert log.emitted == e2 + When(discloses, ei);
    AppendAssoc(e0, When(spoofs, es), [et]);
    AppendAssoc(e0, When(spoofs, es) + [et], When(discloses, ei));
  }

  /** The body of the boundary loop; the description is lower-cased but never consulted. */
  method AddBoundaryThreats(log: ThreatLog, boundary: TrustBoundary)
    requires log.Valid()
    modifies log
    ensures log.Valid()
    ensures log.emitted == old(log.emitted) + BoundaryEmissions(boundary)
  {
    var name := Lower(boundary.name);
    var description := Lower(boundary.description);
    var origin := FromBoundary(name);
    ghost var spoofs := Contains(name, "boundary") || Contains(name, "frontend");
    ghost var tampers := Contains(name, "database") || Contains(name, "backend");
    ghost var es := Emission(Spoofing, origin, boundary.name, Some("Use mutual TLS with client certificates."));
    ghost var et := Emission(Tampering, origin, boundary.name, Some("Apply SHA-256 checksums and OWASP guidelines."));
    assert BoundaryEmissions(boundary) == When(spoofs, es) + When(tampers, et);
    ghost var e0 := log.emitted;
    if Contains(name, "boundary") || Contains(name, "frontend") {
      log.Add(Spoofing, origin, boundary.name, Some("Use mutual TLS with client certificates."));
    }
    assert log.emitted == e0 + When(spoofs, es);
    ghost var e1 := log.emitted;
    if Contains(name, "database") || Contains(name, "backend") {
      log.Add(Tampering, origin, boundary.name, Some("Apply SHA-256 checksums and OWASP guidelines."));
    }
    assert log.emitted == e1 + When(tampers, et);
    AppendAssoc(e0, When(spoofs, es), When(tampers, et));
  }

  /** The seven example `add_threat` calls. */
  method AddExampleThreats(log: ThreatLog)
    requires log.Valid() && log.emitted == []
    modifies log
    ensures log.Valid() && log.emitted == ExampleEmissions
  {
    log.Add(Spoofing, Example(0), "Frontend \U{2192} Backend",
            Some("Use MFA (e.g., TOTP) and HTTP-only, Secure cookies."));
    log.Add(Tampering, Example(1), "Frontend \U{2192} Backend",
            Some("Use HMAC-SHA256 for data integrity and whitelist input validation."));
    log.Add(Repudiation, Example(2), "Backend \U{2192} Database",
            Some("Use AWS CloudTrail for logging and ensure log integrity."));
    log.Add(InformationDisclosure, Example(3), "Backend \U{2192} Database",
            Some("Enable TLS 1.3 and use AES-256 for database encryption."));
    log.Add(InformationDisclosure, Example(4), "Backend \U{2192} Payment Gateway",
            Some("Use TLS 1.3 and OAuth 2.0 for Stripe API."));
    log.Add(DenialOfService, Example(5), "Frontend \U{2192} Backend",
            Some("Configure rate limiting (100 requests/min) and use AWS CloudFront."));
    log.Add(ElevationOfPrivilege, Example(6), "Backend",
            Some("Use AWS IAM roles with least privilege."));
  }

  /** The flow loop. */
  method AddFlowsThreats(log: ThreatLog, dataFlows: seq<DataFlow>)
    requires log.Valid()
    modifies log
    ensures log.Valid()
    ensures log.emitted == old(log.emitted) + Concat(FlowEmissions, dataFlows)
  {
    ghost var start := log.emitted;
    for i := 0 to |dataFlows|
      invariant log.Valid()
      invariant log.emitted == start + Concat(FlowEmissions, dataFlows[..i])
    {
      AddFlowThreats(log, dataFlows[i]);
      ConcatPrefix(FlowEmissions, dataFlows, i);
      AppendAssoc(start, Concat(FlowEmissions, dataFlows[..i]), FlowEmissions(dataFlows[i]));
    }
    assert dataFlows[..|dataFlows|] == dataFlows;
  }

  /** The boundary loop. */
  method AddBoundariesThreats(log: ThreatLog, trustBoundaries: seq<TrustBoundary>)
    requires log.Valid()
    modifies log
    ensures log.Valid()
    ensures log.emitted == old(log.emitted) + Concat(BoundaryEmissions, trustBoundaries)
  {
    ghost var start := log.emitted;
    for i := 0 to |trustBoundaries|
      invariant log.Valid()
      invariant log.emitted == start + Concat(BoundaryEmissions, trustBoundaries[..i])
    {
      AddBoundaryThreats(log, trustBoundaries[i]);
      ConcatPrefix(BoundaryEmissions, trustBoundaries, i);
      AppendAssoc(start, Concat(BoundaryEmissions, trustBoundaries[..i]), BoundaryEmissions(trustBoundaries[i]));
    }
    assert trustBoundaries[..|trustBoundaries|] == trustBoundaries;
  }

  /** `analyze_threats` of threat_modeling_app.py. */
  method AnalyzeThreats(dataFlows: seq<DataFlow>, trustBoundaries: seq<TrustBoundary>)
    returns (threats: seq<Threat>)
    ensures threats == Analysis(dataFlows, trustBoundaries)
  {
    var log := new ThreatLog();
    AddExampleThreats(log);
    AddFlowsThreats(log, dataFlows);
    AddBoundariesThreats(log, trustBoundaries);
    assert log.emitted == Emissions(dataFlows, trustBoundaries);
    threats := log.threats;
  }
}
