/**
  What threat_modeling_app.py does with a threat list once it has one: the
  diagram code sorts threats into edge and node buckets keyed by their diagram
  element, and the results page groups them by element in first-appearance
  order. The ASCII fallback is meant to end in a legend sorted by id; as written
  its layout f-string raises NameError first (`FallbackAsWritten`), and the
  legend is modelled as intended (`Legend`, `FallbackDiagram`).
 */
module TutorialDiagram {
  import opened Text
  import opened ThreatModel
  import opened TutorialEngine

  /** The short label a diagram shows for a threat: "<id>: <type>". */
  function Label(t: Threat): string {
    t.id + ": " + Name(t.kind)
  }

  /** An element whose name holds the arrow is an edge; anything else is a node. */
  predicate IsEdge(dfdElement: string) {
    Arrow in dfdElement
  }

  /** The threats on one element, in list order. */
  function At(threats: seq<Threat>, element: string): seq<Threat> {
    if threats == [] then []
    else
      var last := threats[|threats| - 1];
      At(threats[..|threats| - 1], element) + (if last.dfdElement == element then [last] else [])
  }

  /** The labels of a list of threats, in list order. */
  function Labels(threats: seq<Threat>): (r: seq<string>)
    ensures |r| == |threats|
  {
    if threats == [] then [] else Labels(threats[..|threats| - 1]) + [Label(threats[|threats| - 1])]
  }

  /** The elements of a list of threats, in list order, repeats kept. */
  function Elements(threats: seq<Threat>): (r: seq<string>)
    ensures |r| == |threats|
  {
    if threats == [] then [] else Elements(threats[..|threats| - 1]) + [threats[|threats| - 1].dfdElement]
  }

  /** The ids of a list of threats, in list order, repeats kept. */
  function Ids(threats: seq<Threat>): (r: seq<string>)
    ensures |r| == |threats|
  {
    if threats == [] then [] else Ids(threats[..|threats| - 1]) + [threats[|threats| - 1].id]
  }

  /** The category the last threat with this id has, if any (a dict entry written
      once per threat keeps the last value). */
  function LastKind(threats: seq<Threat>, id: string): Option<Category> {
    if threats == [] then None
    else if threats[|threats| - 1].id == id then Some(threats[|threats| - 1].kind)
    else LastKind(threats[..|threats| - 1], id)
  }

  /** An element's group holds exactly the threats of the list on that element. */
  lemma {:induction false} AtMembers(threats: seq<Threat>, element: string)
    ensures forall t :: t in At(threats, element) <==> t in threats && t.dfdElement == element
  {
    if threats != [] {
      var init := threats[..|threats| - 1];
      AtMembers(init, element);
      assert threats == init + [threats[|threats| - 1]];
    }
  }

  /** Groups of a concatenation are the concatenated groups: emission order is kept. */
  lemma {:induction false} AtAppend(a: seq<Threat>, b: seq<Threat>, element: string)
    ensures At(a + b, element) == At(a, element) + At(b, element)
    decreases |b|
  {
    if b == [] {
      assert a + b == a;
    } else {
      var ab := a + b;
      assert ab[..|ab| - 1] == a + b[..|b| - 1];
      assert ab[|ab| - 1] == b[|b| - 1];
      AtAppend(a, b[..|b| - 1], element);
    }
  }

  /** An element has threats exactly when it is some threat's element. */
  lemma {:induction false} AtNonEmpty(threats: seq<Threat>, element: string)
    ensures At(threats, element) != [] <==> element in Elements(threats)
  {
    if threats != [] {
      AtNonEmpty(threats[..|threats| - 1], element);
    }
  }

  /** An id has a last category exactly when some threat carries it. */
  lemma {:induction false} LastKindPresent(threats: seq<Threat>, id: string)
    ensures LastKind(threats, id).Some? <==> id in Ids(threats)
  {
    if threats != [] {
      LastKindPresent(threats[..|threats| - 1], id);
    }
  }

  // ---------------------------------------------------------------------------
  // Edge and node buckets

  /** `bucket` is one side of the buckets of `threats`: its keys are the elements on
      that side (edges when `edgeSide`, nodes otherwise) that carry a threat, and each
      value lists the labels of that element's threats in list order. */
  ghost predicate Side(threats: seq<Threat>, bucket: map<string, seq<string>>, edgeSide: bool) {
    SideKeys(threats, bucket, edgeSide) && SideValues(threats, bucket)
  }

  ghost predicate SideKeys(threats: seq<Threat>, bucket: map<string, seq<string>>, edgeSide: bool) {
    forall e :: e in bucket <==> IsEdge(e) == edgeSide && |At(threats, e)| > 0
  }

  ghost predicate SideValues(threats: seq<Threat>, bucket: map<string, seq<string>>) {
    forall e <- bucket :: bucket[e] == Labels(At(threats, e))
  }

  /** `edges` and `nodes` are the buckets of `threats`: each element that carries a
      threat is a key of exactly one map, the edge map when its name holds the
      arrow, and its value lists the labels of its threats in list order. */
  ghost predicate Bucketed(threats: seq<Threat>, edges: map<string, seq<string>>, nodes: map<string, seq<string>>) {
    Side(threats, edges, true) && Side(threats, nodes, false)
  }

  /** One more threat joins the group of its own element only. */
  lemma AtSnoc(threats: seq<Threat>, t: Threat, element: string)
    ensures t.dfdElement == element ==> At(threats + [t], element) == At(threats, element) + [t]
    ensures t.dfdElement != element ==> At(threats + [t], element) == At(threats, element)
  {
    assert (threats + [t])[..|threats|] == threats;
    assert At(threats, element) + [] == At(threats, element);
  }

  lemma LabelsSnoc(threats: seq<Threat>, t: Threat)
    ensures Labels(threats + [t]) == Labels(threats) + [Label(t)]
  {
    assert (threats + [t])[..|threats|] == threats;
  }

  /** Appending a threat's label to its element's bucket keeps that side up to date. */
  lemma SideSnocAdd(threats: seq<Threat>, bucket: map<string, seq<string>>, edgeSide: bool, t: Threat)
    requires Side(threats, bucket, edgeSide)
    requires IsEdge(t.dfdElement) == edgeSide
    ensures Side(threats + [t],
                 bucket[t.dfdElement := (if t.dfdElement in bucket then bucket[t.dfdElement] else []) + [Label(t)]],
                 edgeSide)
  {
    KeysSnocAdd(threats, bucket, edgeSide, t);
    ValuesSnocAdd(threats, bucket, edgeSide, t);
  }

  lemma KeysSnocAdd(threats: seq<Threat>, bucket: map<string, seq<string>>, edgeSide: bool, t: Threat)
    requires SideKeys(threats, bucket, edgeSide)
    requires IsEdge(t.dfdElement) == edgeSide
    ensures SideKeys(threats + [t],
                     bucket[t.dfdElement := (if t.dfdElement in bucket then bucket[t.dfdElement] else []) + [Label(t)]],
                     edgeSide)
  {
    var d := t.dfdElement;
    var bucket' := bucket[d := (if d in bucket then bucket[d] else []) + [Label(t)]];
    var longer := threats + [t];
    forall e ensures e in bucket' <==> IsEdge(e) == edgeSide && |At(longer, e)| > 0 {
      AtSnoc(threats, t, e);
      if e == d {
        assert e in bucket';
        assert |At(longer, e)| == |At(threats, e)| + 1;
      } else {
        assert e in bucket' <==> e in bucket;
        assert At(longer, e) == At(threats, e);
      }
    }
  }

  lemma ValuesSnocAdd(threats: seq<Threat>, bucket: map<string, seq<string>>, edgeSide: bool, t: Threat)
    requires Side(threats, bucket, edgeSide)
    requires IsEdge(t.dfdElement) == edgeSide
    ensures SideValues(threats + [t],
                       bucket[t.dfdElement := (if t.dfdElement in bucket then bucket[t.dfdElement] else []) + [Label(t)]])
  {
    var d := t.dfdElement;
    var bucket' := bucket[d := (if d in bucket then bucket[d] else []) + [Label(t)]];
    var longer := threats + [t];
    forall e <- bucket' ensures bucket'[e] == Labels(At(longer, e)) {
      AtSnoc(threats, t, e);
      if e == d {
        assert At(longer, e) == At(threats, e) + [t];
        LabelsSnoc(At(threats, d), t);
        if d !in bucket {
          assert |At(threats, d)| == 0;
          assert At(threats, d) == [];
        }
      } else {
        assert bucket'[e] == bucket[e];
        assert At(longer, e) == At(threats, e);
      }
    }
  }

  /** A threat on the other side leaves this side's bucket as it is. */
  lemma SideSnocKeep(threats: seq<Threat>, bucket: map<string, seq<string>>, edgeSide: bool, t: Threat)
    requires Side(threats, bucket, edgeSide)
    requires IsEdge(t.dfdElement) != edgeSide
    ensures Side(threats + [t], bucket, edgeSide)
  {
    var longer := threats + [t];
    forall e ensures e in bucket <==> IsEdge(e) == edgeSide && |At(longer, e)| > 0 {
      AtSnoc(threats, t, e);
      if e != t.dfdElement {
        assert At(longer, e) == At(threats, e);
      }
    }
    forall e <- bucket ensures bucket[e] == Labels(At(longer, e)) {
      AtSnoc(threats, t, e);
      assert At(longer, e) == At(threats, e);
    }
  }

  /** The first i + 1 threats are the first i and then threat i. */
  lemma PrefixSnoc(threats: seq<Threat>, i: nat)
    requires i < |threats|
    ensures threats[..i + 1] == threats[..i] + [threats[i]]
  {
  }

  lemma ElementsSnoc(threats: seq<Threat>, t: Threat)
    ensures Elements(threats + [t]) == Elements(threats) + [t.dfdElement]
  {
    assert (threats + [t])[..|threats|] == threats;
  }

  /** The bucket loop shared by `annotate_image`, `generate_diagram` and
      `fallback_ascii_diagram`. */
  method BucketThreats(threats: seq<Threat>) returns (edges: map<string, seq<string>>, nodes: map<string, seq<string>>)
    ensures Bucketed(threats, edges, nodes)
  {
    edges := map[];
    nodes := map[];
    for i := 0 to |threats|
      invariant Bucketed(threats[..i], edges, nodes)
    {
      var threat := threats[i];
      var dfdElement := threat.dfdElement;
      var entry := threat.id + ": " + Name(threat.kind);
      PrefixSnoc(threats, i);
      if Arrow in dfdElement {
        SideSnocAdd(threats[..i], edges, true, threat);
        SideSnocKeep(threats[..i], nodes, false, threat);
        var bucket := if dfdElement in edges then edges[dfdElement] else [];
        edges := edges[dfdElement := bucket + [entry]];
      } else {
        SideSnocKeep(threats[..i], edges, true, threat);
        SideSnocAdd(threats[..i], nodes, false, threat);
        var bucket := if dfdElement in nodes then nodes[dfdElement] else [];
        nodes := nodes[dfdElement := bucket + [entry]];
      }
    }
    assert threats[..|threats|] == threats;
  }

  /** Every threat lands in exactly one bucket, under its own element, with its label. */
  lemma BucketsPartition(threats: seq<Threat>, edges: map<string, seq<string>>, nodes: map<string, seq<string>>,
                         t: Threat)
    requires Bucketed(threats, edges, nodes)
    requires t in threats
    ensures t.dfdElement in edges <==> IsEdge(t.dfdElement)
    ensures t.dfdElement in nodes <==> !IsEdge(t.dfdElement)
    ensures IsEdge(t.dfdElement) ==> Label(t) in edges[t.dfdElement]
    ensures !IsEdge(t.dfdElement) ==> Label(t) in nodes[t.dfdElement]
  {
    var group := At(threats, t.dfdElement);
    AtMembers(threats, t.dfdElement);
    assert t in group;
    var k :| 0 <= k < |group| && group[k] == t;
    LabelsAt(group, k);
  }

  lemma {:induction false} LabelsAt(threats: seq<Threat>, k: nat)
    requires k < |threats|
    ensures Labels(threats)[k] == Label(threats[k])
    ensures Label(threats[k]) in Labels(threats)
  {
    if k < |threats| - 1 {
      LabelsAt(threats[..|threats| - 1], k);
    }
  }

  /** In the buckets of an analysis, every declared flow's edge carries at least one
      threat, so the diagram never labels a declared flow "None". */
  lemma FlowEdgesLabelled(flows: seq<DataFlow>, boundaries: seq<TrustBoundary>,
                          edges: map<string, seq<string>>, nodes: map<string, seq<string>>, f: DataFlow)
    requires Bucketed(Analysis(flows, boundaries), edges, nodes)
    requires f in flows
    ensures EdgeLabel(f.source, f.destination) in edges
    ensures edges[EdgeLabel(f.source, f.destination)] != []
  {
    EveryFlowOnItsEdge(flows, boundaries, f);
    var t :| t in Analysis(flows, boundaries) && t.kind == Tampering
      && t.dfdElement == EdgeLabel(f.source, f.destination);
    EdgeLabelShape(f.source, f.destination);
    BucketsPartition(Analysis(flows, boundaries), edges, nodes, t);
  }

  // ---------------------------------------------------------------------------
  // Results page and legend

  /** The results page: threats grouped by element, elements in order of first
      appearance, each group in list order. */
  method GroupByElement(threats: seq<Threat>) returns (order: seq<string>, groups: map<string, seq<Threat>>)
    ensures order == Dedup(Elements(threats))
    ensures forall e :: e in groups <==> e in Elements(threats)
    ensures forall e <- groups :: groups[e] == At(threats, e)
  {
    order := [];
    groups := map[];
    for i := 0 to |threats|
      invariant order == Dedup(Elements(threats[..i]))
      invariant forall e :: e in groups <==> e in Elements(threats[..i])
      invariant forall e <- groups :: groups[e] == At(threats[..i], e)
    {
      var threat := threats[i];
      var dfdElement := threat.dfdElement;
      OrderStep(threats, i, order, groups);
      GroupsStep(threats, i, groups);
      if dfdElement !in groups {
        order := order + [dfdElement];
      }
      var group := if dfdElement in groups then groups[dfdElement] else [];
      groups := groups[dfdElement := group + [threat]];
    }
    assert threats[..|threats|] == threats;
  }

  /** The element order after entering threat i: a new element goes last. */
  lemma OrderStep(threats: seq<Threat>, i: nat, order: seq<string>, groups: map<string, seq<Threat>>)
    requires i < |threats|
    requires order == Dedup(Elements(threats[..i]))
    requires forall e :: e in groups <==> e in Elements(threats[..i])
    ensures var e := threats[i].dfdElement;
      (if e in groups then order else order + [e]) == Dedup(Elements(threats[..i + 1]))
  {
    PrefixSnoc(threats, i);
    ElementsSnoc(threats[..i], threats[i]);
    DedupSnoc(Elements(threats[..i]), threats[i].dfdElement);
  }

  /** The groups after entering threat i: it joins its own element's group, last. */
  lemma GroupsStep(threats: seq<Threat>, i: nat, groups: map<string, seq<Threat>>)
    requires i < |threats|
    requires forall e :: e in groups <==> e in Elements(threats[..i])
    requires forall e <- groups :: groups[e] == At(threats[..i], e)
    ensures var t := threats[i];
      var g := groups[t.dfdElement := (if t.dfdElement in groups then groups[t.dfdElement] else []) + [t]];
      && (forall e :: e in g <==> e in Elements(threats[..i + 1]))
      && (forall e <- g :: g[e] == At(threats[..i + 1], e))
  {
    var t := threats[i];
    var g := groups[t.dfdElement := (if t.dfdElement in groups then groups[t.dfdElement] else []) + [t]];
    PrefixSnoc(threats, i);
    ElementsSnoc(threats[..i], t);
    forall e ensures e in g <==> e in Elements(threats[..i + 1]) {
      if e != t.dfdElement {
        assert (e in g <==> e in groups) && (e in Elements(threats[..i + 1]) <==> e in Elements(threats[..i]));
      }
    }
    forall e <- g ensures g[e] == At(threats[..i + 1], e) {
      AtSnoc(threats[..i], t, e);
      if e == t.dfdElement && t.dfdElement !in groups {
        AtNonEmpty(threats[..i], e);
      }
    }
  }

  /** The results page shows every threat once, under its own element. */
  lemma GroupsCoverThreats(threats: seq<Threat>, groups: map<string, seq<Threat>>, t: Threat)
    requires forall e :: e in groups <==> e in Elements(threats)
    requires forall e <- groups :: groups[e] == At(threats, e)
    requires t in threats
    ensures t.dfdElement in groups && t in groups[t.dfdElement]
    ensures forall e <- groups :: t in groups[e] ==> e == t.dfdElement
  {
    AtMembers(threats, t.dfdElement);
    AtNonEmpty(threats, t.dfdElement);
    forall e <- groups | t in groups[e] ensures e == t.dfdElement {
      AtMembers(threats, e);
    }
  }

  /** One row of the ASCII legend: an id and the category recorded for it. */
  datatype LegendRow = LegendRow(id: string, kind: Category)

  function RowIds(rows: seq<LegendRow>): (r: seq<string>)
    ensures |r| == |rows|
  {
    if rows == [] then [] else RowIds(rows[..|rows| - 1]) + [rows[|rows| - 1].id]
  }

  lemma IdsSnoc(threats: seq<Threat>, t: Threat)
    ensures Ids(threats + [t]) == Ids(threats) + [t.id]
  {
    assert (threats + [t])[..|threats|] == threats;
  }

  /** The entry of an id holds the category of the last threat carrying that id. */
  lemma {:induction false} LastKindLastWrite(threats: seq<Threat>, k: nat)
    requires k < |threats|
    requires forall j :: k < j < |threats| ==> threats[j].id != threats[k].id
    ensures LastKind(threats, threats[k].id) == Some(threats[k].kind)
  {
    if k < |threats| - 1 {
      var p := threats[..|threats| - 1];
      assert p[k] == threats[k];
      LastKindLastWrite(p, k);
    }
  }

  /** Writing one more threat's entry overwrites that id's category only. */
  lemma LastKindSnoc(threats: seq<Threat>, t: Threat)
    ensures LastKind(threats + [t], t.id) == Some(t.kind)
    ensures forall id | id != t.id :: LastKind(threats + [t], id) == LastKind(threats, id)
  {
    assert (threats + [t])[..|threats|] == threats;
  }

  /** The key order after entering threat i: a new id goes last. */
  lemma KeysSnoc(threats: seq<Threat>, i: nat, details: map<string, Category>, keys: seq<string>)
    requires i < |threats|
    requires keys == Dedup(Ids(threats[..i]))
    requires forall id :: id in details <==> id in Ids(threats[..i])
    ensures (if threats[i].id in details then keys else keys + [threats[i].id]) == Dedup(Ids(threats[..i + 1]))
  {
    assert threats[..i + 1] == threats[..i] + [threats[i]];
    IdsSnoc(threats[..i], threats[i]);
    DedupSnoc(Ids(threats[..i]), threats[i].id);
  }

  /** Entering one more threat keeps `details` the last-category map of the threats seen. */
  lemma DetailsSnoc(threats: seq<Threat>, details: map<string, Category>, t: Threat)
    requires forall id :: id in details <==> id in Ids(threats)
    requires forall id <- details :: LastKind(threats, id) == Some(details[id])
    ensures forall id :: id in details[t.id := t.kind] <==> id in Ids(threats + [t])
    ensures forall id <- details[t.id := t.kind] :: LastKind(threats + [t], id) == Some(details[t.id := t.kind][id])
  {
    IdsSnoc(threats, t);
    LastKindSnoc(threats, t);
    var d := details[t.id := t.kind];
    forall id ensures id in d <==> id in Ids(threats + [t]) {
      if id == t.id {
        assert id in d && id in Ids(threats + [t]);
      } else {
        assert (id in d <==> id in details) && (id in Ids(threats + [t]) <==> id in Ids(threats));
      }
    }
    forall id <- d ensures LastKind(threats + [t], id) == Some(d[id]) {
      if id != t.id {
        assert id in details && d[id] == details[id];
      }
    }
  }

  /** `DetailsSnoc` for the prefix loop: the entry of threat i extends the map of the first i threats. */
  lemma DetailsStep(threats: seq<Threat>, i: nat, details: map<string, Category>)
    requires i < |threats|
    requires forall id :: id in details <==> id in Ids(threats[..i])
    requires forall id <- details :: LastKind(threats[..i], id) == Some(details[id])
    ensures var d := details[threats[i].id := threats[i].kind];
      && (forall id :: id in d <==> id in Ids(threats[..i + 1]))
      && (forall id <- d :: LastKind(threats[..i + 1], id) == Some(d[id]))
  {
    assert threats[..i + 1] == threats[..i] + [threats[i]];
    DetailsSnoc(threats[..i], details, threats[i]);
  }

  /** The `threat_details` dict of `fallback_ascii_diagram`: keys in insertion order
      and, per id, the category last written under it. */
  method CollectDetails(threats: seq<Threat>) returns (details: map<string, Category>, keys: seq<string>)
    ensures keys == Dedup(Ids(threats))
    ensures forall id :: id in details <==> id in Ids(threats)
    ensures forall id <- details :: LastKind(threats, id) == Some(details[id])
  {
    details := map[];
    keys := [];
    for i := 0 to |threats|
      invariant keys == Dedup(Ids(threats[..i]))
      invariant forall id :: id in details <==> id in Ids(threats[..i])
      invariant forall id <- details :: LastKind(threats[..i], id) == Some(details[id])
    {
      var threat := threats[i];
      KeysSnoc(threats, i, details, keys);
      DetailsStep(threats, i, details);
      if threat.id !in details {
        keys := keys + [threat.id];
      }
      details := details[threat.id := threat.kind];
    }
    assert threats[..|threats|] == threats;
  }

  /** The legend loop over the sorted ids: one row per id, with its recorded category. */
  method LegendRows(sorted: seq<string>, details: map<string, Category>) returns (rows: seq<LegendRow>)
    requires forall id <- sorted :: id in details
    ensures RowIds(rows) == sorted
    ensures forall r <- rows :: r.id in details && details[r.id] == r.kind
  {
    rows := [];
    for j := 0 to |sorted|
      invariant RowIds(rows) == sorted[..j]
      invariant forall r <- rows :: r.id in details && details[r.id] == r.kind
    {
      assert sorted[j] in sorted;
      var row := LegendRow(sorted[j], details[sorted[j]]);
      assert (rows + [row])[..j] == rows;
      assert sorted[..j + 1] == sorted[..j] + [sorted[j]];
      rows := rows + [row];
    }
    assert sorted[..|sorted|] == sorted;
  }

  /** The legend `fallback_ascii_diagram` is meant to end in: one row per distinct id,
      in Python's string order of the ids, with the category last recorded under that id. */
  method Legend(threats: seq<Threat>) returns (rows: seq<LegendRow>)
    ensures SortedLex(RowIds(rows))
    ensures multiset(RowIds(rows)) == multiset(Dedup(Ids(threats)))
    ensures forall r <- rows :: LastKind(threats, r.id) == Some(r.kind)
  {
    var details, keys := CollectDetails(threats);
    var sorted := Sort(keys);
    assert forall id <- sorted :: id in details by {
      forall id <- sorted ensures id in details {
        assert id in multiset(sorted);
      }
    }
    rows := LegendRows(sorted, details);
  }

  /** Ids compare as strings, so T10 comes before T2 in the legend. */
  lemma LegendPutsT10BeforeT2()
    ensures LexLess(Id(10), Id(2))
  {
    assert Decimal(10) == ['1', '0'];
    assert Id(10) == ['T', '1', '0'] && Id(2) == ['T', '2'];
    assert Id(10)[1..] == ['1', '0'] && Id(2)[1..] == ['2'];
  }

  // ---------------------------------------------------------------------------
  // The layout string of the ASCII fallback

  /** The replacement fields of the layout f-string, in the order Python evaluates them. */
  const LayoutFields: seq<string> := [
    "current_datetime", "frontend_threats", "backend_threats", "database_threats",
    "payment_threats", "frontend_backend_threats", "backend_database_threats",
    "backend_payment_threats"
  ]

  /** What those fields can name when the f-string is evaluated: the module's date
      constant and the function's parameter and dictionaries. (The module's imports and
      other functions are bound too; no field names them.) */
  const LayoutScope: set<string> :=
    {"current_datetime", "threats", "edge_threats", "node_threats", "threat_details"}

  /** The keyword arguments of the `.format` call the result is passed to afterwards. */
  const FormatKeywords: set<string> := {
    "frontend_threats", "backend_threats", "database_threats", "payment_threats",
    "frontend_backend_threats", "backend_database_threats", "backend_payment_threats"
  }

  /** The first field, in evaluation order, that names nothing in scope; None when every
      field is bound. */
  function FirstUnbound(fields: seq<string>, scope: set<string>): (r: Option<string>)
    ensures r.None? <==> forall f <- fields :: f in scope
    ensures r.Some? ==> r.value !in scope
    ensures r.Some? ==>
      exists k :: 0 <= k < |fields| && fields[k] == r.value && (forall j :: 0 <= j < k ==> fields[j] in scope)
  {
    if fields == [] then None
    else if fields[0] !in scope then Some(fields[0])
    else
      var r := FirstUnbound(fields[1..], scope);
      assert fields == [fields[0]] + fields[1..];
      r
  }

  /** The layout names the `.format` keywords as if they were variables: the date
      resolves, and the next field, `frontend_threats`, is bound nowhere. */
  lemma LayoutRaises()
    ensures FirstUnbound(LayoutFields, LayoutScope) == Some("frontend_threats")
  {
    assert LayoutFields[0] in LayoutScope && LayoutFields[1] !in LayoutScope;
    assert LayoutFields[1..][1..] == LayoutFields[2..];
  }

  /** With the `.format` keywords in scope every field of the layout is bound. */
  lemma FormattedLayoutBinds()
    ensures FirstUnbound(LayoutFields, LayoutScope + FormatKeywords) == None
  {
    forall f <- LayoutFields ensures f in LayoutScope + FormatKeywords {
      var i :| 0 <= i < |LayoutFields| && LayoutFields[i] == f;
    }
  }

  /** What the ASCII fallback yields: the exception that escapes it, or a drawing whose
      legend rows are kept (the box layout text is not modelled). */
  datatype Ascii = NameError(name: string) | Drawn(legend: seq<LegendRow>)

  /** `fallback_ascii_diagram` with the given names in scope at the layout f-string:
      the bucket loop runs, then the f-string is evaluated, and only when every field
      resolves is the legend built. */
  method Render(threats: seq<Threat>, scope: set<string>) returns (r: Ascii)
    ensures FirstUnbound(LayoutFields, scope).Some? ==> r == NameError(FirstUnbound(LayoutFields, scope).value)
    ensures FirstUnbound(LayoutFields, scope).None? ==>
      && r.Drawn?
      && SortedLex(RowIds(r.legend))
      && multiset(RowIds(r.legend)) == multiset(Dedup(Ids(threats)))
      && forall row <- r.legend :: LastKind(threats, row.id) == Some(row.kind)
  {
    var edges, nodes := BucketThreats(threats);
    match FirstUnbound(LayoutFields, scope)
    case Some(name) =>
      r := NameError(name);
    case None =>
      var rows := Legend(threats);
      r := Drawn(rows);
  }

  /** `fallback_ascii_diagram` as written: its layout is an f-string, so the fields meant
      for the later `.format` call are looked up as variables, and the first of them
      raises NameError for every threat list, before the legend loop is reached. */
  method FallbackAsWritten(threats: seq<Threat>) returns (r: Ascii)
    ensures r == NameError("frontend_threats")
    ensures !r.Drawn?
  {
    LayoutRaises();
    r := Render(threats, LayoutScope);
  }

  /** `fallback_ascii_diagram` as evidently intended: the layout's fields are filled by
      the `.format` call, and the legend is drawn sorted by id, each id once with its
      category. */
  method FallbackDiagram(threats: seq<Threat>) returns (r: Ascii)
    ensures r.Drawn?
    ensures SortedLex(RowIds(r.legend))
    ensures multiset(RowIds(r.legend)) == multiset(Dedup(Ids(threats)))
    ensures forall row <- r.legend :: LastKind(threats, row.id) == Some(row.kind)
  {
    FormattedLayoutBinds();
    r := Render(threats, LayoutScope + FormatKeywords);
  }
}
