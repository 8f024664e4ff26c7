/**
  The STRIDE engine of app.py (`analyze_threats`): a component detector over
  the lower-cased system description, six system-level rules gated by the
  detected components, per-flow rules, per-boundary rules and, when a diagram
  was uploaded, three threats per detected diagram component. The session
  inputs (description, diagram, flows, boundaries) are explicit arguments.

  The specification is the function `Analysis`; the method `AnalyzeThreats`
  is the source's step-by-step construction of the threat list and is proved
  to produce exactly `Analysis`.
 */
module AppEngine {
  import opened Text
  import opened ThreatModel

  /** Which stage and which entity a threat comes from. The strings are the
      lower-cased values the rule writes into the threat's description. */
  datatype Origin =
    | SystemLevel
    | FromFlow(source: string, destination: string, dataType: string)
    | FromBoundary(name: string)
    | FromDiagram(component: DiagramComponent)

  /** A threat as app.py records it. Its description, mitigation, ASVS and
      SAMM texts are fixed per rule, and (kind, origin) names the rule. */
  datatype AppThreat = AppThreat(kind: Category, origin: Origin)

  /** The feature vector of the component detector. */
  datatype Components = Components(
    web: bool, api: bool, database: bool, cloud: bool, authentication: bool, thirdParty: bool)

  const NoComponents := Components(false, false, false, false, false, false)

  /** Some threat of `ts` has category `k`. */
  predicate Emits(ts: seq<AppThreat>, k: Category) {
    exists t <- ts :: t.kind == k
  }

  /** Categories strictly increase along `ts`: S, T, R, I, D, E order, none twice. */
  ghost predicate InStrideOrder(ts: seq<AppThreat>) {
    forall i, j :: 0 <= i < j < |ts| ==> Rank(ts[i].kind) < Rank(ts[j].kind)
  }

  // ---------------------------------------------------------------------------
  // Component detector

  /** The component detector: six flags, each a substring test on the lower-cased description. */
  function Detect(description: string): Components {
    var text := Lower(description);
    Components(
      web := Contains(text, "web application") || Contains(text, "website"),
      api := Contains(text, "api") || Contains(text, "endpoint"),
      database := Contains(text, "database") || Contains(text, "db"),
      cloud := Contains(text, "cloud") || Contains(text, "aws") || Contains(text, "azure"),
      authentication :=
        Contains(text, "login") || Contains(text, "password") || Contains(text, "credential"),
      thirdParty := Contains(text, "third party") || Contains(text, "external"))
  }

  /** Each flag holds exactly when one of its keywords occurs somewhere in the lower-cased description. */
  lemma DetectSpec(description: string)
    ensures var c, text := Detect(description), Lower(description);
      && (c.web <==> Occurs("web application", text) || Occurs("website", text))
      && (c.api <==> Occurs("api", text) || Occurs("endpoint", text))
      && (c.database <==> Occurs("database", text) || Occurs("db", text))
      && (c.cloud <==> Occurs("cloud", text) || Occurs("aws", text) || Occurs("azure", text))
      && (c.authentication <==>
            Occurs("login", text) || Occurs("password", text) || Occurs("credential", text))
      && (c.thirdParty <==> Occurs("third party", text) || Occurs("external", text))
  {
    var text := Lower(description);
    ContainsIffOccurs(text, "web application"); ContainsIffOccurs(text, "website");
    ContainsIffOccurs(text, "api"); ContainsIffOccurs(text, "endpoint");
    ContainsIffOccurs(text, "database"); ContainsIffOccurs(text, "db");
    ContainsIffOccurs(text, "cloud"); ContainsIffOccurs(text, "aws"); ContainsIffOccurs(text, "azure");
    ContainsIffOccurs(text, "login"); ContainsIffOccurs(text, "password");
    ContainsIffOccurs(text, "credential");
    ContainsIffOccurs(text, "third party"); ContainsIffOccurs(text, "external");
  }

  function Union(c: Components, d: Components): Components {
    Components(c.web || d.web, c.api || d.api, c.database || d.database, c.cloud || d.cloud,
               c.authentication || d.authentication, c.thirdParty || d.thirdParty)
  }

  /** Lower-casing two texts joined by ';' lower-cases each of them. */
  lemma LowerJoin(a: string, b: string)
    ensures Lower(a + ";" + b) == Lower(a) + [';'] + Lower(b)
  {
    LowerAppend(a, ";");
    LowerAppend(a + ";", b);
    assert Lower(";") == ";";
  }

  /** Flags do not interact: the flags of two texts joined by ';' are the flags of either text. */
  lemma DetectJoin(a: string, b: string)
    ensures Detect(a + ";" + b) == Union(Detect(a), Detect(b))
  {
    var la, lb := Lower(a), Lower(b);
    LowerJoin(a, b);
    ContainsAcrossSeparator(la, ';', lb, "web application");
    ContainsAcrossSeparator(la, ';', lb, "website");
    ContainsAcrossSeparator(la, ';', lb, "api");
    ContainsAcrossSeparator(la, ';', lb, "endpoint");
    ContainsAcrossSeparator(la, ';', lb, "database");
    ContainsAcrossSeparator(la, ';', lb, "db");
    ContainsAcrossSeparator(la, ';', lb, "cloud");
    ContainsAcrossSeparator(la, ';', lb, "aws");
    ContainsAcrossSeparator(la, ';', lb, "azure");
    ContainsAcrossSeparator(la, ';', lb, "login");
    ContainsAcrossSeparator(la, ';', lb, "password");
    ContainsAcrossSeparator(la, ';', lb, "credential");
    ContainsAcrossSeparator(la, ';', lb, "third party");
    ContainsAcrossSeparator(la, ';', lb, "external");
  }

  /** Detection reads the description case-insensitively. */
  lemma DetectIgnoresCase(description: string)
    ensures Detect(Lower(description)) == Detect(description)
  {
    LowerIdempotent(description);
  }

  // ---------------------------------------------------------------------------
  // Rules, their categories and their order

  /** A rule that emits one threat of category `k` when `fires` holds. */
  function When(fires: bool, k: Category, origin: Origin): seq<AppThreat> {
    if fires then [AppThreat(k, origin)] else []
  }

  lemma EmitsAppend(a: seq<AppThreat>, b: seq<AppThreat>, k: Category)
    ensures Emits(a + b, k) <==> Emits(a, k) || Emits(b, k)
  {
    if Emits(a + b, k) {
      var t :| t in a + b && t.kind == k;
      assert t in a || t in b;
    }
    if Emits(b, k) {
      var t :| t in b && t.kind == k;
      assert t in a + b;
    }
  }

  lemma EmitsWhen(fires: bool, k: Category, origin: Origin, k': Category)
    ensures Emits(When(fires, k, origin), k') <==> fires && k == k'
  {
    if fires && k == k' {
      assert When(fires, k, origin)[0].kind == k';
    }
  }

  /** Appending a rule of a later category keeps the list in STRIDE order. */
  lemma WhenExtendsOrder(p: seq<AppThreat>, fires: bool, k: Category, origin: Origin)
    requires InStrideOrder(p)
    requires forall t <- p :: Rank(t.kind) < Rank(k)
    ensures InStrideOrder(p + When(fires, k, origin))
    ensures forall t <- p + When(fires, k, origin) :: Rank(t.kind) <= Rank(k)
  {
    var r := p + When(fires, k, origin);
    forall i, j | 0 <= i < j < |r| ensures Rank(r[i].kind) < Rank(r[j].kind) {
      if j >= |p| {
        assert r[i] in p;
      }
    }
  }

  // ---------------------------------------------------------------------------
  // System-level rules

  /** The six system rules, each evaluated once, in S, T, R, I, D, E order. */
  function SystemThreats(c: Components): seq<AppThreat> {
    When(c.authentication || c.api, Spoofing, SystemLevel)
    + When(c.database || c.web, Tampering, SystemLevel)
    + When(c.authentication || c.web, Repudiation, SystemLevel)
    + When(c.database || c.cloud, InformationDisclosure, SystemLevel)
    + When(c.api || c.web, DenialOfService, SystemLevel)
    + When(c.thirdParty || c.cloud, ElevationOfPrivilege, SystemLevel)
  }

  /** At most six system threats, all system-level; none at all exactly when no component was detected. */
  lemma SystemThreatsShape(c: Components)
    ensures var r := SystemThreats(c);
      && |r| <= 6
      && (forall t <- r :: t.origin == SystemLevel)
      && (c == NoComponents <==> r == [])
  {
  }

  /** Which system rule fires for which components. */
  lemma SystemThreatsFire(c: Components)
    ensures var r := SystemThreats(c);
      && (Emits(r, Spoofing) <==> c.authentication || c.api)
      && (Emits(r, Tampering) <==> c.database || c.web)
      && (Emits(r, Repudiation) <==> c.authentication || c.web)
      && (Emits(r, InformationDisclosure) <==> c.database || c.cloud)
      && (Emits(r, DenialOfService) <==> c.api || c.web)
      && (Emits(r, ElevationOfPrivilege) <==> c.thirdParty || c.cloud)
  {
    var fs, ft, fr := c.authentication || c.api, c.database || c.web, c.authentication || c.web;
    var fi, fd, fe := c.database || c.cloud, c.api || c.web, c.thirdParty || c.cloud;
    var s := When(fs, Spoofing, SystemLevel);
    var t := When(ft, Tampering, SystemLevel);
    var r := When(fr, Repudiation, SystemLevel);
    var i := When(fi, InformationDisclosure, SystemLevel);
    var d := When(fd, DenialOfService, SystemLevel);
    var e := When(fe, ElevationOfPrivilege, SystemLevel);
    forall k ensures Emits(SystemThreats(c), k) <==>
      (fs && k == Spoofing) || (ft && k == Tampering) || (fr && k == Repudiation)
      || (fi && k == InformationDisclosure) || (fd && k == DenialOfService)
      || (fe && k == ElevationOfPrivilege)
    {
      EmitsAppend(s, t, k);
      EmitsAppend(s + t, r, k);
      EmitsAppend(s + t + r, i, k);
      EmitsAppend(s + t + r + i, d, k);
      EmitsAppend(s + t + r + i + d, e, k);
      EmitsWhen(fs, Spoofing, SystemLevel, k);
      EmitsWhen(ft, Tampering, SystemLevel, k);
      EmitsWhen(fr, Repudiation, SystemLevel, k);
      EmitsWhen(fi, InformationDisclosure, SystemLevel, k);
      EmitsWhen(fd, DenialOfService, SystemLevel, k);
      EmitsWhen(fe, ElevationOfPrivilege, SystemLevel, k);
    }
  }

  /** System threats come in S, T, R, I, D, E order, none twice. */
  lemma SystemThreatsOrdered(c: Components)
    ensures InStrideOrder(SystemThreats(c))
  {
    var p0 := When(c.authentication || c.api, Spoofing, SystemLevel);
    WhenExtendsOrder([], c.authentication || c.api, Spoofing, SystemLevel);
    assert [] + p0 == p0;
    WhenExtendsOrder(p0, c.database || c.web, Tampering, SystemLevel);
    var p1 := p0 + When(c.database || c.web, Tampering, SystemLevel);
    WhenExtendsOrder(p1, c.authentication || c.web, Repudiation, SystemLevel);
    var p2 := p1 + When(c.authentication || c.web, Repudiation, SystemLevel);
    WhenExtendsOrder(p2, c.database || c.cloud, InformationDisclosure, SystemLevel);
    var p3 := p2 + When(c.database || c.cloud, InformationDisclosure, SystemLevel);
    WhenExtendsOrder(p3, c.api || c.web, DenialOfService, SystemLevel);
    var p4 := p3 + When(c.api || c.web, DenialOfService, SystemLevel);
    WhenExtendsOrder(p4, c.thirdParty || c.cloud, ElevationOfPrivilege, SystemLevel);
  }

  /** The description "login api" sets exactly the authentication and api flags; both
      switch on Spoofing, which is still emitted once. (The text is a parameter so that
      the keyword searches are proved from the lemmas about them rather than unfolded.) */
  lemma LoginApiExample(description: string)
    requires description == "login api"
    ensures Detect(description) == NoComponents.(api := true, authentication := true)
    ensures SystemThreats(Detect(description)) ==
      [AppThreat(Spoofing, SystemLevel), AppThreat(Repudiation, SystemLevel),
       AppThreat(DenialOfService, SystemLevel)]
  {
    DetectLoginApi(description);
  }

  lemma DetectLoginApi(description: string)
    requires description == "login api"
    ensures Detect(description) == NoComponents.(api := true, authentication := true)
  {
    LoginApiLower(description);
    LoginApiLacks(description);
    ContainsAt(description, "login", 0);
    ContainsAt(description, "api", 6);
    MissesKeywords(description);
  }

  /** "login api" is already lower-case. */
  lemma LoginApiLower(text: string)
    requires text == "login api"
    ensures Lower(text) == text
  {
    LowerSpec(text);
    assert forall i :: 0 <= i < |text| ==> !('A' <= text[i] <= 'Z');
  }

  /** "login api" lacks the letters w, e, d, c, z, s and t. */
  lemma LoginApiLacks(text: string)
    requires text == "login api"
    ensures 'w' !in text && 'e' !in text && 'd' !in text && 'c' !in text
    ensures 'z' !in text && 's' !in text && 't' !in text
  {
  }

  /** A text lacking the letters w, e, d, c, z, s and t holds none of the keywords
      except possibly "login" and "api": each of the others has one of those letters. */
  lemma MissesKeywords(text: string)
    requires 'w' !in text && 'e' !in text && 'd' !in text && 'c' !in text
    requires 'z' !in text && 's' !in text && 't' !in text
    ensures !Contains(text, "web application") && !Contains(text, "website") && !Contains(text, "endpoint")
    ensures !Contains(text, "database") && !Contains(text, "db") && !Contains(text, "cloud")
    ensures !Contains(text, "aws") && !Contains(text, "azure") && !Contains(text, "password")
    ensures !Contains(text, "credential") && !Contains(text, "third party") && !Contains(text, "external")
  {
    MissingChar(text, "web application", 'w');
    MissingChar(text, "website", 'w');
    MissingChar(text, "endpoint", 'e');
    MissingChar(text, "database", 'd');
    MissingChar(text, "db", 'd');
    MissingChar(text, "cloud", 'c');
    MissingChar(text, "aws", 'w');
    MissingChar(text, "azure", 'z');
    MissingChar(text, "password", 's');
    MissingChar(text, "credential", 'c');
    MissingChar(text, "third party", 't');
    MissingChar(text, "external", 'e');
  }

  // ---------------------------------------------------------------------------
  // Per-flow rules

  /** The rules for one flow, on its lower-cased fields: Spoofing on a user or
      client source, Tampering always, Information Disclosure on sensitive data,
      Denial of Service on an API or server destination. */
  function FlowThreats(f: DataFlow): seq<AppThreat> {
    var dataType, source, destination := Lower(f.dataType), Lower(f.source), Lower(f.destination);
    var origin := FromFlow(source, destination, dataType);
    When(Contains(source, "user") || Contains(source, "client"), Spoofing, origin)
    + When(true, Tampering, origin)
    + When(Contains(dataType, "pii") || Contains(dataType, "sensitive")
           || Contains(dataType, "confidential"), InformationDisclosure, origin)
    + When(Contains(destination, "api") || Contains(destination, "server"), DenialOfService, origin)
  }

  /** A flow yields one to four threats, all attributed to that flow's lower-cased fields. */
  lemma FlowThreatsShape(f: DataFlow)
    ensures var r := FlowThreats(f);
      && 1 <= |r| <= 4
      && forall t <- r :: t.origin == FromFlow(Lower(f.source), Lower(f.destination), Lower(f.dataType))
  {
  }

  /** The categories of a flow's threats, stated on the substring scan. */
  lemma FlowThreatsEmit(f: DataFlow, k: Category)
    ensures var source, destination, dataType := Lower(f.source), Lower(f.destination), Lower(f.dataType);
      Emits(FlowThreats(f), k) <==>
        || ((Contains(source, "user") || Contains(source, "client")) && k == Spoofing)
        || k == Tampering
        || ((Contains(dataType, "pii") || Contains(dataType, "sensitive")
             || Contains(dataType, "confidential")) && k == InformationDisclosure)
        || ((Contains(destination, "api") || Contains(destination, "server")) && k == DenialOfService)
  {
    var dataType, source, destination := Lower(f.dataType), Lower(f.source), Lower(f.destination);
    var o := FromFlow(source, destination, dataType);
    var fs := Contains(source, "user") || Contains(source, "client");
    var fi := Contains(dataType, "pii") || Contains(dataType, "sensitive") || Contains(dataType, "confidential");
    var fd := Contains(destination, "api") || Contains(destination, "server");
    var s, t, i, d := When(fs, Spoofing, o), When(true, Tampering, o),
                      When(fi, InformationDisclosure, o), When(fd, DenialOfService, o);
    assert FlowThreats(f) == s + t + i + d;
    EmitsAppend(s, t, k);
    EmitsAppend(s + t, i, k);
    EmitsAppend(s + t + i, d, k);
    EmitsWhen(fs, Spoofing, o, k);
    EmitsWhen(true, Tampering, o, k);
    EmitsWhen(fi, InformationDisclosure, o, k);
    EmitsWhen(fd, DenialOfService, o, k);
  }

  /** Which flow rule fires for which flow; Repudiation and Elevation of Privilege never do. */
  lemma FlowThreatsFire(f: DataFlow)
    ensures var r, source, destination, dataType :=
      FlowThreats(f), Lower(f.source), Lower(f.destination), Lower(f.dataType);
      && (Emits(r, Spoofing) <==> Occurs("user", source) || Occurs("client", source))
      && Emits(r, Tampering)
      && (Emits(r, InformationDisclosure) <==>
            Occurs("pii", dataType) || Occurs("sensitive", dataType) || Occurs("confidential", dataType))
      && (Emits(r, DenialOfService) <==> Occurs("api", destination) || Occurs("server", destination))
      && !Emits(r, Repudiation) && !Emits(r, ElevationOfPrivilege)
  {
    var dataType, source, destination := Lower(f.dataType), Lower(f.source), Lower(f.destination);
    ContainsIffOccurs(source, "user"); ContainsIffOccurs(source, "client");
    ContainsIffOccurs(dataType, "pii"); ContainsIffOccurs(dataType, "sensitive");
    ContainsIffOccurs(dataType, "confidential");
    ContainsIffOccurs(destination, "api"); ContainsIffOccurs(destination, "server");
    FlowThreatsEmit(f, Spoofing);
    FlowThreatsEmit(f, Tampering);
    FlowThreatsEmit(f, Repudiation);
    FlowThreatsEmit(f, InformationDisclosure);
    FlowThreatsEmit(f, DenialOfService);
    FlowThreatsEmit(f, ElevationOfPrivilege);
  }

  /** A flow's threats come in STRIDE order, none twice. */
  lemma FlowThreatsOrdered(f: DataFlow)
    ensures InStrideOrder(FlowThreats(f))
  {
    var dataType, source, destination := Lower(f.dataType), Lower(f.source), Lower(f.destination);
    var o := FromFlow(source, destination, dataType);
    var fs := Contains(source, "user") || Contains(source, "client");
    var fi := Contains(dataType, "pii") || Contains(dataType, "sensitive") || Contains(dataType, "confidential");
    var fd := Contains(destination, "api") || Contains(destination, "server");
    WhenExtendsOrder([], fs, Spoofing, o);
    assert [] + When(fs, Spoofing, o) == When(fs, Spoofing, o);
    var p0 := When(fs, Spoofing, o);
    WhenExtendsOrder(p0, true, Tampering, o);
    var p1 := p0 + When(true, Tampering, o);
    WhenExtendsOrder(p1, fi, InformationDisclosure, o);
    var p2 := p1 + When(fi, InformationDisclosure, o);
    WhenExtendsOrder(p2, fd, DenialOfService, o);
  }

  /** The flow stage: each flow's threats, flows in list order. */
  function FlowsThreats(flows: seq<DataFlow>): seq<AppThreat> {
    Concat(FlowThreats, flows)
  }

  /** n flows yield between n and 4n threats, all attributed to flows. */
  lemma FlowsThreatsBounds(flows: seq<DataFlow>)
    ensures |flows| <= |FlowsThreats(flows)| <= 4 * |flows|
    ensures forall t <- FlowsThreats(flows) :: t.origin.FromFlow?
  {
    forall f <- flows ensures 1 <= |FlowThreats(f)| <= 4 {
      FlowThreatsShape(f);
    }
    ConcatAtLeast(FlowThreats, flows, 1);
    ConcatAtMost(FlowThreats, flows, 4);
    forall t <- FlowsThreats(flows) ensures t.origin.FromFlow? {
      ConcatMember(FlowThreats, flows, t);
      var f :| f in flows && t in FlowThreats(f);
      FlowThreatsShape(f);
    }
  }

  /** The flow from "User" to "API" carrying "PII" fires all four flow rules. */
  lemma UserApiPiiExample()
    ensures var o := FromFlow("user", "api", "pii");
      FlowThreats(DataFlow("User", "API", "PII")) ==
        [AppThreat(Spoofing, o), AppThreat(Tampering, o),
         AppThreat(InformationDisclosure, o), AppThreat(DenialOfService, o)]
  {
    LowerChars("User", "user");
    LowerChars("API", "api");
    LowerChars("PII", "pii");
    ContainsAt("user", "user", 0);
    ContainsAt("pii", "pii", 0);
    ContainsAt("api", "api", 0);
  }

  // ---------------------------------------------------------------------------
  // Per-boundary rules

  /** The rules for one boundary, on its lower-cased name: Spoofing on a
      "boundary" or "dmz" name, Tampering on a "database" or "server" name,
      Elevation of Privilege always. */
  function BoundaryThreats(b: TrustBoundary): seq<AppThreat> {
    var name := Lower(b.name);
    var origin := FromBoundary(name);
    When(Contains(name, "boundary") || Contains(name, "dmz"), Spoofing, origin)
    + When(Contains(name, "database") || Contains(name, "server"), Tampering, origin)
    + When(true, ElevationOfPrivilege, origin)
  }

  /** A boundary yields one to three threats, all attributed to its lower-cased name. */
  lemma BoundaryThreatsShape(b: TrustBoundary)
    ensures var r := BoundaryThreats(b);
      && 1 <= |r| <= 3
      && forall t <- r :: t.origin == FromBoundary(Lower(b.name))
  {
  }

  /** The categories of a boundary's threats, stated on the substring scan. */
  lemma BoundaryThreatsEmit(b: TrustBoundary, k: Category)
    ensures var name := Lower(b.name);
      Emits(BoundaryThreats(b), k) <==>
        || ((Contains(name, "boundary") || Contains(name, "dmz")) && k == Spoofing)
        || ((Contains(name, "database") || Contains(name, "server")) && k == Tampering)
        || k == ElevationOfPrivilege
  {
    var name := Lower(b.name);
    var o := FromBoundary(name);
    var fs := Contains(name, "boundary") || Contains(name, "dmz");
    var ft := Contains(name, "database") || Contains(name, "server");
    var s, t, e := When(fs, Spoofing, o), When(ft, Tampering, o), When(true, ElevationOfPrivilege, o);
    assert BoundaryThreats(b) == s + t + e;
    EmitsAppend(s, t, k);
    EmitsAppend(s + t, e, k);
    EmitsWhen(fs, Spoofing, o, k);
    EmitsWhen(ft, Tampering, o, k);
    EmitsWhen(true, ElevationOfPrivilege, o, k);
  }

  /** Which boundary rule fires for which name; the other three categories never do. */
  lemma BoundaryThreatsFire(b: TrustBoundary)
    ensures var r, name := BoundaryThreats(b), Lower(b.name);
      && (Emits(r, Spoofing) <==> Occurs("boundary", name) || Occurs("dmz", name))
      && (Emits(r, Tampering) <==> Occurs("database", name) || Occurs("server", name))
      && Emits(r, ElevationOfPrivilege)
      && !Emits(r, Repudiation) && !Emits(r, InformationDisclosure) && !Emits(r, DenialOfService)
  {
    var name := Lower(b.name);
    ContainsIffOccurs(name, "boundary"); ContainsIffOccurs(name, "dmz");
    ContainsIffOccurs(name, "database"); ContainsIffOccurs(name, "server");
    BoundaryThreatsEmit(b, Spoofing);
    BoundaryThreatsEmit(b, Tampering);
    BoundaryThreatsEmit(b, Repudiation);
    BoundaryThreatsEmit(b, InformationDisclosure);
    BoundaryThreatsEmit(b, DenialOfService);
    BoundaryThreatsEmit(b, ElevationOfPrivilege);
  }

  /** A boundary's threats come in STRIDE order, none twice. */
  lemma BoundaryThreatsOrdered(b: TrustBoundary)
    ensures InStrideOrder(BoundaryThreats(b))
  {
    var name := Lower(b.name);
    var o := FromBoundary(name);
    var fs := Contains(name, "boundary") || Contains(name, "dmz");
    var ft := Contains(name, "database") || Contains(name, "server");
    WhenExtendsOrder([], fs, Spoofing, o);
    assert [] + When(fs, Spoofing, o) == When(fs, Spoofing, o);
    var p0 := When(fs, Spoofing, o);
    WhenExtendsOrder(p0, ft, Tampering, o);
    var p1 := p0 + When(ft, Tampering, o);
    WhenExtendsOrder(p1, true, ElevationOfPrivilege, o);
  }

  /** The boundary description never affects which rules fire. */
  lemma BoundaryIgnoresDescription(name: string, d1: string, d2: string)
    ensures BoundaryThreats(TrustBoundary(name, d1)) == BoundaryThreats(TrustBoundary(name, d2))
  {
  }

  /** The boundary stage: each boundary's threats, boundaries in list order. */
  function BoundariesThreats(boundaries: seq<TrustBoundary>): seq<AppThreat> {
    Concat(BoundaryThreats, boundaries)
  }

  /** n boundaries yield between n and 3n threats, all attributed to boundaries. */
  lemma BoundariesThreatsBounds(boundaries: seq<TrustBoundary>)
    ensures |boundaries| <= |BoundariesThreats(boundaries)| <= 3 * |boundaries|
    ensures forall t <- BoundariesThreats(boundaries) :: t.origin.FromBoundary?
  {
    forall b <- boundaries ensures 1 <= |BoundaryThreats(b)| <= 3 {
      BoundaryThreatsShape(b);
    }
    ConcatAtLeast(BoundaryThreats, boundaries, 1);
    ConcatAtMost(BoundaryThreats, boundaries, 3);
    forall t <- BoundariesThreats(boundaries) ensures t.origin.FromBoundary? {
      ConcatMember(BoundaryThreats, boundaries, t);
      var b :| b in boundaries && t in BoundaryThreats(b);
      BoundaryThreatsShape(b);
    }
  }

  /** The boundary "DMZ" gets Spoofing and Elevation of Privilege, not Tampering. */
  lemma DmzExample()
    ensures BoundaryThreats(TrustBoundary("DMZ", "edge network")) ==
      [AppThreat(Spoofing, FromBoundary("dmz")), AppThreat(ElevationOfPrivilege, FromBoundary("dmz"))]
  {
    assert Lower("DMZ") == "dmz";
  }

  // ---------------------------------------------------------------------------
  // Diagram stage

  /** The catalogue of components the diagram stage can assume, in the order it checks them. */
  datatype DiagramComponent = WebApplication | Database | Api | CloudService

  /** The component's name as written into the threat texts. */
  function Label(d: DiagramComponent): (r: string)
    ensures r != [] && r[0] == match d
      case WebApplication => 'W' case Database => 'D' case Api => 'A' case CloudService => 'C'
  {
    match d
    case WebApplication => "Web Application"
    case Database => "Database"
    case Api => "API"
    case CloudService => "Cloud Service"
  }

  /** Distinct components have distinct names. */
  lemma LabelInjective(d: DiagramComponent, e: DiagramComponent)
    ensures Label(d) == Label(e) <==> d == e
  {
    if Label(d) == Label(e) {
      assert Label(d)[0] == Label(e)[0];
    }
  }

  function CatalogueRank(d: DiagramComponent): nat {
    match d
    case WebApplication => 0
    case Database => 1
    case Api => 2
    case CloudService => 3
  }

  /** The components the diagram is assumed to contain: those the detector switched on, in catalogue order. */
  function DiagramComponents(c: Components): seq<DiagramComponent> {
    (if c.web then [WebApplication] else [])
    + (if c.database then [Database] else [])
    + (if c.api then [Api] else [])
    + (if c.cloud then [CloudService] else [])
  }

  /** A component is assumed exactly when its flag is set. */
  lemma DiagramComponentsMembers(c: Components)
    ensures var r := DiagramComponents(c);
      && |r| <= 4
      && (WebApplication in r <==> c.web) && (Database in r <==> c.database)
      && (Api in r <==> c.api) && (CloudService in r <==> c.cloud)
  {
  }

  /** Assumed components follow the catalogue order, none twice. */
  lemma DiagramComponentsOrdered(c: Components)
    ensures var r := DiagramComponents(c);
      forall i, j :: 0 <= i < j < |r| ==> CatalogueRank(r[i]) < CatalogueRank(r[j])
  {
  }

  function ThreatsOfComponent(component: DiagramComponent): seq<AppThreat> {
    [AppThreat(Spoofing, FromDiagram(component)),
     AppThreat(InformationDisclosure, FromDiagram(component)),
     AppThreat(DenialOfService, FromDiagram(component))]
  }

  function ComponentsThreats(components: seq<DiagramComponent>): seq<AppThreat> {
    Concat(ThreatsOfComponent, components)
  }

  /** Component k owns positions 3k, 3k+1, 3k+2: Spoofing, Information Disclosure, Denial of Service. */
  lemma {:induction false} ComponentsThreatsShape(components: seq<DiagramComponent>)
    ensures |ComponentsThreats(components)| == 3 * |components|
    ensures forall k :: 0 <= k < |components| ==>
      ComponentsThreats(components)[3 * k..3 * k + 3] == ThreatsOfComponent(components[k])
    ensures forall t <- ComponentsThreats(components) :: t.origin.FromDiagram?
  {
    if components != [] {
      var init := components[..|components| - 1];
      ComponentsThreatsShape(init);
      var r := ComponentsThreats(components);
      forall k | 0 <= k < |components|
        ensures r[3 * k..3 * k + 3] == ThreatsOfComponent(components[k])
      {
        if k < |init| {
          assert r[3 * k..3 * k + 3] == ComponentsThreats(init)[3 * k..3 * k + 3];
        }
      }
    }
  }

  /** The diagram stage runs only when a diagram was uploaded. */
  function DiagramThreats(c: Components, diagram: string): seq<AppThreat> {
    if diagram != "" then ComponentsThreats(DiagramComponents(c)) else []
  }

  /** A diagram with web and database detected yields exactly six threats. */
  lemma WebDatabaseDiagramExample(diagram: string)
    requires diagram != ""
    ensures DiagramThreats(NoComponents.(web := true, database := true), diagram) ==
      ThreatsOfComponent(WebApplication) + ThreatsOfComponent(Database)
  {
    var c := NoComponents.(web := true, database := true);
    var both := [WebApplication, Database];
    assert DiagramComponents(c) == both;
    assert both[..1] == [WebApplication];
    assert [WebApplication][..0] == [];
    assert ComponentsThreats([WebApplication]) == [] + ThreatsOfComponent(WebApplication);
    assert ComponentsThreats(both) == ComponentsThreats([WebApplication]) + ThreatsOfComponent(Database);
  }

  // ---------------------------------------------------------------------------
  // The whole analysis

  /** System threats, then flow threats, then boundary threats, then diagram threats. */
  function Analysis(description: string, diagram: string, flows: seq<DataFlow>,
                    boundaries: seq<TrustBoundary>): seq<AppThreat>
  {
    var c := Detect(description);
    SystemThreats(c) + FlowsThreats(flows) + BoundariesThreats(boundaries) + DiagramThreats(c, diagram)
  }

  function Stage(o: Origin): nat {
    match o
    case SystemLevel => 0
    case FromFlow(_, _, _) => 1
    case FromBoundary(_) => 2
    case FromDiagram(_) => 3
  }

  /** The output length is bounded by the stage bounds. */
  lemma AnalysisBounds(description: string, diagram: string, flows: seq<DataFlow>,
                       boundaries: seq<TrustBoundary>)
    ensures var n := |Analysis(description, diagram, flows, boundaries)|;
      |flows| + |boundaries| <= n <= 6 + 4 * |flows| + 3 * |boundaries| + 12
  {
    var c := Detect(description);
    SystemThreatsShape(c);
    FlowsThreatsBounds(flows);
    BoundariesThreatsBounds(boundaries);
    DiagramComponentsMembers(c);
    ComponentsThreatsShape(DiagramComponents(c));
    var s, f, b, d := SystemThreats(c), FlowsThreats(flows), BoundariesThreats(boundaries),
                      DiagramThreats(c, diagram);
    assert |d| <= 12;
    assert |s + f + b + d| == |s| + |f| + |b| + |d|;
  }

  ghost predicate StagesInOrder(r: seq<AppThreat>) {
    forall i, j :: 0 <= i < j < |r| ==> Stage(r[i].origin) <= Stage(r[j].origin)
  }

  /** Appending threats of stage n to threats of stages up to n keeps stages in order. */
  lemma AppendStage(p: seq<AppThreat>, q: seq<AppThreat>, n: nat)
    requires StagesInOrder(p)
    requires forall t <- p :: Stage(t.origin) <= n
    requires forall t <- q :: Stage(t.origin) == n
    ensures StagesInOrder(p + q)
    ensures forall t <- p + q :: Stage(t.origin) <= n
  {
    var r := p + q;
    forall i, j | 0 <= i < j < |r| ensures Stage(r[i].origin) <= Stage(r[j].origin) {
      if i < |p| {
        assert r[i] in p;
      } else {
        assert r[i] in q;
      }
      if j < |p| {
        assert r[j] in p;
      } else {
        assert r[j] in q;
      }
    }
  }

  /** Stages never interleave: system, flow, boundary and diagram threats come in that order. */
  lemma AnalysisStageOrder(description: string, diagram: string, flows: seq<DataFlow>,
                           boundaries: seq<TrustBoundary>)
    ensures StagesInOrder(Analysis(description, diagram, flows, boundaries))
  {
    var c := Detect(description);
    SystemThreatsShape(c);
    FlowsThreatsBounds(flows);
    BoundariesThreatsBounds(boundaries);
    ComponentsThreatsShape(DiagramComponents(c));
    var s, f, b, d := SystemThreats(c), FlowsThreats(flows), BoundariesThreats(boundaries),
                      DiagramThreats(c, diagram);
    AppendStage([], s, 0);
    assert [] + s == s;
    AppendStage(s, f, 1);
    AppendStage(s + f, b, 2);
    AppendStage(s + f + b, d, 3);
  }

  /** A description with no keyword adds nothing beyond the flow and boundary threats,
      with or without a diagram. */
  lemma NoKeywordsOnlyEntityThreats(description: string, diagram: string, flows: seq<DataFlow>,
                                    boundaries: seq<TrustBoundary>)
    requires Detect(description) == NoComponents
    ensures Analysis(description, diagram, flows, boundaries) ==
      FlowsThreats(flows) + BoundariesThreats(boundaries)
  {
  }

  // ---------------------------------------------------------------------------
  // The source's construction

  /** The first part of `analyze_threats`: each system rule appends its threat when its flags are set. */
  method AddSystemThreats(components: Components) returns (threats: seq<AppThreat>)
    ensures threats == SystemThreats(components)
  {
    threats := [];
    if components.authentication || components.api {
      threats := threats + [AppThreat(Spoofing, SystemLevel)];
    }
    ghost var p0 := threats;
    assert p0 == When(components.authentication || components.api, Spoofing, SystemLevel);
    if components.database || components.web {
      threats := threats + [AppThreat(Tampering, SystemLevel)];
    }
    assert threats == p0 + When(components.database || components.web, Tampering, SystemLevel);
    ghost var p1 := threats;
    if components.authentication || components.web {
      threats := threats + [AppThreat(Repudiation, SystemLevel)];
    }
    assert threats == p1 + When(components.authentication || components.web, Repudiation, SystemLevel);
    ghost var p2 := threats;
    if components.database || components.cloud {
      threats := threats + [AppThreat(InformationDisclosure, SystemLevel)];
    }
    assert threats == p2 + When(components.database || components.cloud, InformationDisclosure, SystemLevel);
    ghost var p3 := threats;
    if components.api || components.web {
      threats := threats + [AppThreat(DenialOfService, SystemLevel)];
    }
    assert threats == p3 + When(components.api || components.web, DenialOfService, SystemLevel);
    ghost var p4 := threats;
    if components.thirdParty || components.cloud {
      threats := threats + [AppThreat(ElevationOfPrivilege, SystemLevel)];
    }
    assert threats == p4 + When(components.thirdParty || components.cloud, ElevationOfPrivilege, SystemLevel);
  }

  /** The body of the flow loop: the rules for one flow, appended to `threats`. */
  method AddFlowThreats(threats: seq<AppThreat>, flow: DataFlow) returns (r: seq<AppThreat>)
    ensures r == threats + FlowThreats(flow)
  {
    var dataType := Lower(flow.dataType);
    var source := Lower(flow.source);
    var destination := Lower(flow.destination);
    var origin := FromFlow(source, destination, dataType);
    r := threats;
    if Contains(source, "user") || Contains(source, "client") {
      r := r + [AppThreat(Spoofing, origin)];
    }
    ghost var p0 := r;
    r := r + [AppThreat(Tampering, origin)];
    ghost var p1 := r;
    if Contains(dataType, "pii") || Contains(dataType, "sensitive")
       || Contains(dataType, "confidential") {
      r := r + [AppThreat(InformationDisclosure, origin)];
    }
    ghost var p2 := r;
    if Contains(destination, "api") || Contains(destination, "server") {
      r := r + [AppThreat(DenialOfService, origin)];
    }
    assert r == p2 + When(Contains(destination, "api") || Contains(destination, "server"),
                          DenialOfService, origin);
  }

  /** The body of the boundary loop: the rules for one boundary, appended to `threats`.
      The boundary description is lower-cased but never consulted. */
  method AddBoundaryThreats(threats: seq<AppThreat>, boundary: TrustBoundary) returns (r: seq<AppThreat>)
    ensures r == threats + BoundaryThreats(boundary)
  {
    var name := Lower(boundary.name);
    var description := Lower(boundary.description);
    var origin := FromBoundary(name);
    r := threats;
    if Contains(name, "boundary") || Contains(name, "dmz") {
      r := r + [AppThreat(Spoofing, origin)];
    }
    ghost var p0 := r;
    if Contains(name, "database") || Contains(name, "server") {
      r := r + [AppThreat(Tampering, origin)];
    }
    ghost var p1 := r;
    r := r + [AppThreat(ElevationOfPrivilege, origin)];
  }

  /** The list of components the diagram is assumed to contain, built flag by flag. */
  method AssumeDiagramComponents(components: Components) returns (diagramComponents: seq<DiagramComponent>)
    ensures diagramComponents == DiagramComponents(components)
  {
    diagramComponents := [];
    if components.web {
      diagramComponents := diagramComponents + [WebApplication];
    }
    ghost var p0 := diagramComponents;
    assert p0 == (if components.web then [WebApplication] else []);
    if components.database {
      diagramComponents := diagramComponents + [Database];
    }
    assert diagramComponents == p0 + (if components.database then [Database] else []);
    ghost var p1 := diagramComponents;
    if components.api {
      diagramComponents := diagramComponents + [Api];
    }
    assert diagramComponents == p1 + (if components.api then [Api] else []);
    ghost var p2 := diagramComponents;
    if components.cloud {
      diagramComponents := diagramComponents + [CloudService];
    }
    assert diagramComponents == p2 + (if components.cloud then [CloudService] else []);
  }

  /** The diagram loop: three threats per assumed component, appended to `threats`. */
  method AddDiagramThreats(threats: seq<AppThreat>, diagramComponents: seq<DiagramComponent>)
    returns (r: seq<AppThreat>)
    ensures r == threats + ComponentsThreats(diagramComponents)
  {
    r := threats;
    for i := 0 to |diagramComponents|
      invariant r == threats + ComponentsThreats(diagramComponents[..i])
    {
      var component := diagramComponents[i];
      r := r + [AppThreat(Spoofing, FromDiagram(component))];
      r := r + [AppThreat(InformationDisclosure, FromDiagram(component))];
      r := r + [AppThreat(DenialOfService, FromDiagram(component))];
      ConcatPrefix(ThreatsOfComponent, diagramComponents, i);
    }
    assert diagramComponents[..|diagramComponents|] == diagramComponents;
  }

  /** The flow loop of `analyze_threats`: every flow's rules, flows in list order. */
  method AddFlowsThreats(threats: seq<AppThreat>, dataFlows: seq<DataFlow>) returns (r: seq<AppThreat>)
    ensures r == threats + FlowsThreats(dataFlows)
  {
    r := threats;
    for i := 0 to |dataFlows|
      invariant r == threats + FlowsThreats(dataFlows[..i])
    {
      r := AddFlowThreats(r, dataFlows[i]);
      ConcatPrefix(FlowThreats, dataFlows, i);
      assert r == threats + (FlowsThreats(dataFlows[..i]) + FlowThreats(dataFlows[i]));
    }
    assert dataFlows[..|dataFlows|] == dataFlows;
  }

  /** The boundary loop of `analyze_threats`: every boundary's rules, boundaries in list order. */
  method AddBoundariesThreats(threats: seq<AppThreat>, trustBoundaries: seq<TrustBoundary>)
    returns (r: seq<AppThreat>)
    ensures r == threats + BoundariesThreats(trustBoundaries)
  {
    r := threats;
    for i := 0 to |trustBoundaries|
      invariant r == threats + BoundariesThreats(trustBoundaries[..i])
    {
      r := AddBoundaryThreats(r, trustBoundaries[i]);
      ConcatPrefix(BoundaryThreats, trustBoundaries, i);
      assert r == threats + (BoundariesThreats(trustBoundaries[..i]) + BoundaryThreats(trustBoundaries[i]));
    }
    assert trustBoundaries[..|trustBoundaries|] == trustBoundaries;
  }

  /** `analyze_threats` of app.py: the system rules, then the flow loop, then
      the boundary loop, then, when a diagram was uploaded, the diagram stage. */
  method AnalyzeThreats(textInput: string, diagram: string, dataFlows: seq<DataFlow>,
                        trustBoundaries: seq<TrustBoundary>)
    returns (threats: seq<AppThreat>)
    ensures threats == Analysis(textInput, diagram, dataFlows, trustBoundaries)
  {
    var components := Detect(textInput);
    threats := AddSystemThreats(components);
    threats := AddFlowsThreats(threats, dataFlows);
    threats := AddBoundariesThreats(threats, trustBoundaries);
    if diagram != "" {
      var diagramComponents := AssumeDiagramComponents(components);
      threats := AddDiagramThreats(threats, diagramComponents);
    }
  }
}
