# STRIDE threat modelling wizard — Dafny model

The repository holds two Streamlit front ends over one idea. A user describes
a system in three steps:

1. a free-text description and an optional diagram upload;
2. data flows (`source`, `destination`, `dataType`) and trust boundaries
   (`name`, `description`);
3. a STRIDE threat list computed by a deterministic rule table of substring tests.

`app.py` is the plain variant:

- a component detector turns the lower-cased description into six flags;
- six system-level rules follow, then per-flow and per-boundary rules;
- a diagram stage follows when a diagram was uploaded.

`threat_modeling_app.py` is the tutorial variant:

- every run starts with seven worked e-commerce threats;
- per-flow and per-boundary rules follow, with their own keyword sets;
- each threat gets an id `T<n>` from a counter and a data-flow-diagram element
  (an edge `"src → dst"` or a node name);
- its pages group the threats by element into edge and node buckets and group
  the results page by element;
- its ASCII fallback diagram is meant to end in a legend sorted by id, but as
  written it raises `NameError` before the legend is built (see Findings).

Modules:

| module | file | what it holds |
|---|---|---|
| `Text` | text.dfy | ASCII lower-casing for `str.lower`, substring search for `in`, decimal ids, code-point string order with a sort, first-appearance de-duplication |
| `ThreatModel` | threat_model.dfy | STRIDE categories, data flows, trust boundaries, and `Concat`: the threats of a list of entities in list order |
| `AppEngine` | app_engine.dfy | `app.py`'s `analyze_threats`: rule functions specifying each stage, proved properties, and the imperative method |
| `AppWizard` | app_wizard.dfy | `app.py`'s session as a class, one method per button |
| `TutorialEngine` | tutorial_engine.dfy | `threat_modeling_app.py`'s `analyze_threats`: the `add_threat` counter as a class, the rules, whole-run properties |
| `TutorialDiagram` | tutorial_diagram.dfy | the edge/node bucket loops, the results-page grouping and the sorted legend |
| `TutorialWizard` | tutorial_wizard.dfy | `threat_modeling_app.py`'s session as a class, defaults and Start Over |

How the model is built:

- Each imperative routine is a method proved equal to a specification function
  of its inputs (`AnalyzeThreats` ensures `threats == Analysis(...)`). The
  properties the code promises are lemmas about those functions.
- Threats are modelled as their category plus an `Origin` tag naming the rule
  that fired and the entity it fired on: a flow's or a boundary's lower-cased
  fields, or the diagram component (whose name `Label` gives). The prose fields
  are not modelled.
- An absent diagram or upload (`None`) is modelled as `""`; both are falsy in Python.

## Model

| member | source | states |
|---|---|---|
| Text.LowerSpec | app.py:41 | lower-casing keeps the length, leaves no upper-case letter, and changes exactly the upper-case letters (by +32) |
| Text.LowerIdempotent | app.py:41 | lower-casing twice is lower-casing once |
| Text.LowerAppend | app.py:41 | lower-casing distributes over concatenation |
| Text.ContainsIffOccurs | app.py:42-49 | the executable substring test holds exactly when the needle occurs at some position (Python's `in` on strings) |
| Text.ContainsAcrossSeparator | app.py:42-49 | a needle free of the separator occurs in `a;b` exactly when it occurs in `a` or in `b` |
| Text.DecimalRoundTrip | threat_modeling_app.py:315 | parsing the decimal rendering of a counter gives the counter back |
| Text.DecimalInjective | threat_modeling_app.py:315 | distinct counters render to distinct digit strings |
| Text.LexLessTotal | threat_modeling_app.py:293 | the string order used by `sorted` on ids is total |
| Text.LexLessTransitive | threat_modeling_app.py:293 | the string order is transitive |
| Text.Sort | threat_modeling_app.py:293 | the result is sorted by string order and is a permutation of the input |
| Text.Dedup | threat_modeling_app.py:587-592 | the keys of a dict filled left to right: pairwise distinct, holding exactly the input's values |
| Text.DedupFirstAppearance | threat_modeling_app.py:587-590 | the distinct elements are listed in the order of their first occurrences in the input |
| ThreatModel.ConcatAppend | app.py:118-201 | entities are analysed independently: the threats of `a + b` are those of `a` then those of `b` |
| ThreatModel.ConcatMember | app.py:118-201 | every threat of a list comes from one of its entities |
| ThreatModel.ConcatIncludes | threat_modeling_app.py:400-462 | every threat of every entity appears in the list's threats |
| AppEngine.DetectSpec | app.py:41-49 | each of the six flags holds exactly when one of its own keywords occurs in the lower-cased description |
| AppEngine.DetectJoin | app.py:41-49 | the flags of two texts joined by `;` are the union of the flags of each |
| AppEngine.DetectIgnoresCase | app.py:41 | detection does not depend on letter case |
| AppEngine.SystemThreatsShape | app.py:51-115 | at most six system threats, all system-level, and none exactly when no flag is set |
| AppEngine.SystemThreatsFire | app.py:51-115 | each category is emitted exactly when the disjunction of flags its rule tests holds |
| AppEngine.SystemThreatsOrdered | app.py:51-115 | system threats come in strict S, T, R, I, D, E order |
| AppEngine.LoginApiExample | app.py:41-115 | the description "login api" sets exactly the authentication and api flags, and then yields exactly Spoofing, Repudiation and Denial of Service |
| AppEngine.FlowThreatsShape | app.py:118-164 | one to four threats per flow, all attributed to the flow's lower-cased fields |
| AppEngine.FlowThreatsFire | app.py:118-164 | Spoofing iff source has user/client; Tampering always; Information Disclosure iff dataType has pii/sensitive/confidential; Denial of Service iff destination has api/server; no other category |
| AppEngine.FlowThreatsOrdered | app.py:118-164 | a flow's threats come in strict STRIDE order |
| AppEngine.UserApiPiiExample | app.py:118-164 | the flow User → API carrying PII fires all four flow rules |
| AppEngine.FlowsThreatsBounds | app.py:118-164 | n flows yield between n and 4n threats, all flow-attributed |
| AppEngine.BoundaryThreatsShape | app.py:167-201 | one to three threats per boundary, attributed to its lower-cased name |
| AppEngine.BoundaryThreatsFire | app.py:167-201 | Spoofing iff name has boundary/dmz; Tampering iff name has database/server; Elevation of Privilege always; no other category |
| AppEngine.BoundaryThreatsOrdered | app.py:167-201 | a boundary's threats come in strict STRIDE order |
| AppEngine.BoundaryIgnoresDescription | app.py:167-201 | the boundary description never affects the threats |
| AppEngine.DmzExample | app.py:167-201 | a boundary named DMZ yields Spoofing and Elevation of Privilege |
| AppEngine.BoundariesThreatsBounds | app.py:167-201 | n boundaries yield between n and 3n threats, all boundary-attributed |
| AppEngine.LabelInjective | app.py:206-214 | the four component names are distinct |
| AppEngine.DiagramComponentsMembers | app.py:206-214 | a component is assumed exactly when its flag is set; at most four |
| AppEngine.DiagramComponentsOrdered | app.py:206-214 | components are listed in the fixed order Web Application, Database, API, Cloud Service |
| AppEngine.ComponentsThreatsShape | app.py:216-245 | exactly three threats per component: Spoofing, Information Disclosure, Denial of Service, in that order |
| AppEngine.WebDatabaseDiagramExample | app.py:204-245 | with a diagram and the web and database flags: the three threats of each, web first |
| AppEngine.AnalysisBounds | app.py:25-247 | the output length lies between the stage lower and upper bounds |
| AppEngine.AnalysisStageOrder | app.py:25-247 | system threats precede flow threats, which precede boundary threats, which precede diagram threats |
| AppEngine.NoKeywordsOnlyEntityThreats | app.py:25-247 | with no keyword in the description, only flow and boundary threats are emitted |
| AppEngine.AddSystemThreats | app.py:51-115 | the six guarded appends produce the system-threat specification |
| AppEngine.AddFlowThreats | app.py:118-164 | one flow's appends add exactly its specified threats |
| AppEngine.AddBoundaryThreats | app.py:167-201 | one boundary's appends add exactly its specified threats |
| AppEngine.AssumeDiagramComponents | app.py:206-214 | the component list built by appends equals the flag-gated catalogue |
| AppEngine.AddDiagramThreats | app.py:216-245 | the loop over components appends exactly three threats per component |
| AppEngine.AddFlowsThreats | app.py:118-164 | the loop over flows appends each flow's threats in list order |
| AppEngine.AddBoundariesThreats | app.py:167-201 | the loop over boundaries appends each boundary's threats in list order |
| AppEngine.AnalyzeThreats | app.py:25-247 | the procedure returns exactly the specified analysis |
| AppWizard.Wizard.constructor | app.py:10-23 | step 1, empty description, no diagram, no flows or boundaries, no model, no error |
| AppWizard.Wizard.EditDescription | app.py:251-255 | the text area replaces the description and nothing else |
| AppWizard.Wizard.Upload | app.py:257-258 | an upload sets the diagram and nothing else |
| AppWizard.Wizard.Next | app.py:260-265 | step 2 exactly when there is a description or a diagram; otherwise the error is set and the step kept |
| AppWizard.Wizard.AddDataFlow | app.py:275-281 | appends exactly when all three fields are non-empty; otherwise the list is unchanged and the error set |
| AppWizard.Wizard.AddTrustBoundary | app.py:292-298 | appends exactly when name and description are non-empty; otherwise the list is unchanged and the error set |
| AppWizard.Wizard.Analyze | app.py:305-312 | with a flow or a boundary, step 3 with the model equal to the analysis of the current inputs; otherwise the error |
| AppWizard.Wizard.StartOver | app.py:325-332 | back to step 1 with every entry emptied |
| TutorialEngine.EdgeLabelShape | threat_modeling_app.py:404 | an edge label is the source, a blank, the arrow, a blank, then the destination |
| TutorialEngine.EdgeLabelInjective | threat_modeling_app.py:404 | for sources without the arrow, equal edge labels mean equal source and destination |
| TutorialEngine.IdInjective | threat_modeling_app.py:315 | distinct counter values give distinct ids |
| TutorialEngine.Numbered | threat_modeling_app.py:310-327 | numbering keeps one threat per emission |
| TutorialEngine.NumberedSnoc | threat_modeling_app.py:310-327 | one more `add_threat` appends one record with the next counter value |
| TutorialEngine.NumberedSpec | threat_modeling_app.py:310-327 | the i-th threat has id T(i+1) and the emission's category, origin and element; ids are unique |
| TutorialEngine.FlowTampering | threat_modeling_app.py:416-425 | the always-fired flow rule is Tampering on the flow's edge |
| TutorialEngine.FlowEmissionsShape | threat_modeling_app.py:400-436 | one to three threats per flow, in STRIDE order, on the original-case edge label, with controls |
| TutorialEngine.FlowEmissionsFire | threat_modeling_app.py:400-436 | Spoofing iff source has user/client; Tampering always; Information Disclosure iff dataType has pii/sensitive; no other category |
| TutorialEngine.BoundaryEmissionsShape | threat_modeling_app.py:438-462 | at most two threats per boundary, in STRIDE order, on the original-case name, with controls |
| TutorialEngine.BoundaryEmissionsFire | threat_modeling_app.py:438-462 | Spoofing iff name has boundary/frontend; Tampering iff name has database/backend; no other category |
| TutorialEngine.BoundaryIgnoresDescription | threat_modeling_app.py:438-462 | the boundary description never affects the threats |
| TutorialEngine.ExampleEmissionsControlled | threat_modeling_app.py:329-398 | seven example threats, each with controls |
| TutorialEngine.ExampleEmissionsCoverStride | threat_modeling_app.py:329-398 | the examples cover all six categories |
| TutorialEngine.ExampleEmissionsPlaced | threat_modeling_app.py:329-398 | the first six examples sit on edges, the seventh on the Backend node |
| TutorialEngine.AnalysisStartsWithExamples | threat_modeling_app.py:329-398 | every run, whatever its inputs, starts with T1..T7, the seven examples |
| TutorialEngine.AnalysisCount | threat_modeling_app.py:307-464 | between 7 + n and 7 + 3n + 2m threats for n flows and m boundaries |
| TutorialEngine.EmissionsControlled | threat_modeling_app.py:324-325 | every call passes a non-empty controls string |
| TutorialEngine.NumberedControlled | threat_modeling_app.py:324-325 | controls are recorded whenever they are truthy |
| TutorialEngine.AnalysisAllControlled | threat_modeling_app.py:324-325 | every threat of a run carries controls |
| TutorialEngine.AnalysisIds | threat_modeling_app.py:310-327 | the ids of a run are exactly T1..Tn in order, and unique |
| TutorialEngine.EmissionsAfterExamples | threat_modeling_app.py:400-436 | flow threats start right after the seven examples |
| TutorialEngine.EveryFlowOnItsEdge | threat_modeling_app.py:400-436 | every flow has a Tampering threat on its own edge label |
| TutorialEngine.ThreatLog.constructor | threat_modeling_app.py:309-310 | an empty list and a counter at 1 |
| TutorialEngine.ThreatLog.Add | threat_modeling_app.py:312-327 | appends a record with id from the counter, controls only when truthy, and increments the counter |
| TutorialEngine.AddExampleThreats | threat_modeling_app.py:329-398 | the seven calls emit exactly the examples |
| TutorialEngine.AddFlowThreats | threat_modeling_app.py:400-436 | one flow's calls emit exactly its specified threats |
| TutorialEngine.AddBoundaryThreats | threat_modeling_app.py:438-462 | one boundary's calls emit exactly its specified threats |
| TutorialEngine.AddFlowsThreats | threat_modeling_app.py:400-436 | the flow loop emits each flow's threats in list order |
| TutorialEngine.AddBoundariesThreats | threat_modeling_app.py:438-462 | the boundary loop emits each boundary's threats in list order |
| TutorialEngine.AnalyzeThreats | threat_modeling_app.py:307-464 | the procedure returns exactly the specified numbered analysis |
| TutorialDiagram.AtMembers | threat_modeling_app.py:256-263 | an element's group holds exactly the threats on that element |
| TutorialDiagram.AtAppend | threat_modeling_app.py:256-263 | grouping a concatenation concatenates the groups, so emission order is kept |
| TutorialDiagram.AtNonEmpty | threat_modeling_app.py:256-263 | an element has a non-empty group exactly when some threat is on it |
| TutorialDiagram.LastKindPresent | threat_modeling_app.py:259 | an id has a legend entry exactly when some threat carries it |
| TutorialDiagram.LastKindLastWrite | threat_modeling_app.py:259 | an id's entry holds the category of the last threat carrying that id |
| TutorialDiagram.BucketThreats | threat_modeling_app.py:256-263 | the edge and node maps are the buckets: keys are exactly the elements with threats, split by the arrow, values are the labels in emission order |
| TutorialDiagram.BucketsPartition | threat_modeling_app.py:256-263 | each threat's element is a key of exactly one map, and the threat's label is in that bucket |
| TutorialDiagram.FlowEdgesLabelled | threat_modeling_app.py:225-227 | looking up a flow's edge label in the edge map finds a non-empty bucket |
| TutorialDiagram.GroupByElement | threat_modeling_app.py:587-590 | the results page lists elements in first-appearance order, each with exactly its threats in order |
| TutorialDiagram.GroupsCoverThreats | threat_modeling_app.py:587-590 | every threat is in its own element's group and in no other |
| TutorialDiagram.CollectDetails | threat_modeling_app.py:256-259 | the details map has exactly the ids of the run, each with the category last recorded for it |
| TutorialDiagram.LegendRows | threat_modeling_app.py:293-294 | one row per sorted id, with its recorded category |
| TutorialDiagram.Legend | threat_modeling_app.py:289-295 | legend rows are sorted by id as strings, hold each id once, with its category |
| TutorialDiagram.LegendPutsT10BeforeT2 | threat_modeling_app.py:293 | string order puts T10 before T2 |
| TutorialDiagram.FirstUnbound | threat_modeling_app.py:265-287 | the field an f-string fails on: none exactly when every field is bound, otherwise an unbound field preceded only by bound ones |
| TutorialDiagram.LayoutRaises | threat_modeling_app.py:265-287 | with only the date constant and the function's locals in scope, the layout fails on `frontend_threats` |
| TutorialDiagram.FormattedLayoutBinds | threat_modeling_app.py:298-305 | with the `.format` keywords in scope, every field of the layout is bound |
| TutorialDiagram.Render | threat_modeling_app.py:251-305 | the fallback raises on the first unbound layout field; when every field is bound, it draws the sorted legend |
| TutorialDiagram.FallbackAsWritten | threat_modeling_app.py:251-305 | as written, the fallback raises `NameError` for every threat list and never draws a legend |
| TutorialDiagram.FallbackDiagram | threat_modeling_app.py:251-305 | as intended, the fallback draws a legend sorted by id, with each id once and its last category |
| TutorialWizard.BoundaryAdmission | threat_modeling_app.py:524-543 | a listed name needs only a description; "Custom" also needs a typed name that is neither empty nor "Custom" |
| TutorialWizard.DefaultsAdmissible | threat_modeling_app.py:17-35 | the default description, flows and boundaries meet the admission rules |
| TutorialWizard.Wizard.constructor | threat_modeling_app.py:15-43 | step 1 with the e-commerce description, three default flows and boundaries, nothing uploaded, no model, no error |
| TutorialWizard.Wizard.EditDescription | threat_modeling_app.py:472-476 | the text area replaces the description and nothing else |
| TutorialWizard.Wizard.Upload | threat_modeling_app.py:477-479 | an upload sets the image and nothing else |
| TutorialWizard.Wizard.Next | threat_modeling_app.py:482-486 | step 2 exactly when there is a description, an image or a diagram; otherwise the error |
| TutorialWizard.Wizard.AddDataFlow | threat_modeling_app.py:506-515 | appends exactly when all three fields are non-empty; otherwise the list is unchanged and the error set |
| TutorialWizard.Wizard.AddTrustBoundary | threat_modeling_app.py:524-543 | appends the selected or custom name exactly when it is non-empty and not "Custom" and a description is given; otherwise unchanged with the error |
| TutorialWizard.Wizard.Analyze | threat_modeling_app.py:566-573 | with a flow or a boundary, step 3 with the model equal to the analysis of the current flows and boundaries; otherwise the error |
| TutorialWizard.Wizard.StartOver | threat_modeling_app.py:604-625 | back to step 1 with exactly the default description, flows and boundaries, no image, no model, no error |

## Left out

- Streamlit widgets, reruns, spinners and the page rendering. Each button handler is a method that may run only at the step whose page shows the button.
- Base64 encoding of uploads. The upload is a parameter standing for the encoded file; only its presence matters.
- Graphviz rendering and PIL annotation (`generate_diagram`, `annotate_image`), and the step-2 preview that calls them. Only their bucket loops are modelled. So `generated_diagram` is not modelled. The preview's ASCII fallback raises (see Findings). So with no uploaded image and no Graphviz executable, step 2 stops before the "Analyze Threats" button is drawn. The same holds at step 3 whenever no diagram was stored. `TutorialWizard.Wizard.Analyze` models the button as if it were always drawn. `TutorialWizard.Wizard.StartOver` likewise models its button as always drawn.
- The ASCII diagram's box layout, the `str.format` substitution and the padded legend columns. A legend row keeps its id and category; the description text is not kept.
- The prose of each threat (type wording, description, mitigation, ASVS, SAMM). A threat is its category and an `Origin` tag naming the rule and the entity it fired on. The tutorial variant's `controls` strings are kept verbatim, because whether they are truthy decides the record's shape.
- Python's Unicode `str.lower`. It is modelled as an ASCII fold, so non-ASCII letters are not lower-cased.
- The fixed date string and the tips section. They are constant page text.
- threat_modeling_app1.py. It is a static HTML page and holds no logic.
- Each detector flag depends only on its own keywords (`AppEngine.DetectSpec`), and detection is compositional (`AppEngine.DetectJoin`). No separate lemma varies one keyword at a time.
- The seven example threats' categories and elements ("Frontend → Backend" ×2, "Backend → Database" ×2, "Backend → Payment Gateway", "Frontend → Backend", "Backend") are held verbatim in `TutorialEngine.ExampleEmissions`. The proved lemmas use that constant. Only the edge/node placement and the category coverage are restated as lemmas.
- Three facts about the rule tables, which the model keeps as the code has them:
  - app.py's detector has no public-facing flag;
  - app.py's boundary Tampering rule tests the boundary name for "database" and "server";
  - the tutorial's flow rules have no Denial of Service rule and no "confidential" keyword.

## Findings

| source | as written | input that shows it | evidently intended | confidence | as-written member | corrected member |
|---|---|---|---|---|---|---|
| threat_modeling_app.py:265 | the layout of `fallback_ascii_diagram` is an f-string, so `{frontend_threats}` and the other `.format` keywords are looked up as variables when it is built; none is bound, so `NameError` is raised before the legend loop at lines 289-295 | any threat list, e.g. the seven example threats of a default run, with Graphviz unavailable | every layout field bound when the layout is built: the seven joined strings of lines 298-305 next to the date constant; then the legend sorted by id | high (not executed) | TutorialDiagram.FallbackAsWritten | TutorialDiagram.FallbackDiagram |
