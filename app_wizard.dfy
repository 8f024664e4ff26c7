/**
  The three-step wizard of app.py: describe the system (step 1), declare data
  flows and trust boundaries (step 2), read the threat model (step 3). The
  session record becomes the fields of `Wizard`; each button handler becomes a
  method that may only run at the step whose page shows that button.
 */
module AppWizard {
  import opened ThreatModel
  import AppEngine

  const DescriptionMissing: string := "Please provide a system description or diagram."
  const FlowIncomplete: string := "Please fill in all data flow fields."
  const BoundaryIncomplete: string := "Please fill in all trust boundary fields."
  const NothingToAnalyze: string := "Please add at least one data flow or trust boundary."

  /** A trust boundary the wizard admits: both fields filled in. */
  predicate CompleteBoundary(b: TrustBoundary) {
    b.name != "" && b.description != ""
  }

  class Wizard {
    var step: nat
    var textInput: string
    /** The uploaded diagram, base64-encoded; "" when there is none. */
    var diagram: string
    var dataFlows: seq<DataFlow>
    var trustBoundaries: seq<TrustBoundary>
    var threatModel: Option<seq<AppEngine.AppThreat>>
    var error: string

    /** What every reachable session satisfies: a valid step; only complete flows and
        boundaries; steps 2 and 3 reached only with a description or a diagram; a
        threat model exactly on step 3, the analysis of the current inputs, which
        hold at least one flow or boundary. */
    ghost predicate Valid()
      reads this
    {
      && 1 <= step <= 3
      && (forall f <- dataFlows :: CompleteFlow(f))
      && (forall b <- trustBoundaries :: CompleteBoundary(b))
      && (step >= 2 ==> textInput != "" || diagram != "")
      && (step < 3 ==> threatModel == None)
      && (step == 3 ==>
            && (dataFlows != [] || trustBoundaries != [])
            && threatModel == Some(AppEngine.Analysis(textInput, diagram, dataFlows, trustBoundaries)))
    }

    /** The session as first initialised. */
    constructor ()
      ensures Valid()
      ensures step == 1 && textInput == "" && diagram == ""
      ensures dataFlows == [] && trustBoundaries == [] && threatModel == None && error == ""
    {
      step := 1;
      textInput := "";
      diagram := "";
      dataFlows := [];
      trustBoundaries := [];
      threatModel := None;
      error := "";
    }

    /** Step 1's text area writes the description back on every render. */
    method EditDescription(text: string)
      requires Valid() && step == 1
      modifies this
      ensures Valid()
      ensures textInput == text
      ensures step == old(step) && diagram == old(diagram) && dataFlows == old(dataFlows)
      ensures trustBoundaries == old(trustBoundaries) && threatModel == old(threatModel) && error == old(error)
    {
      textInput := text;
    }

    /** An upload on step 1 stores the file's encoding (the encoding itself is not modelled). */
    method Upload(encoded: string)
      requires Valid() && step == 1
      modifies this
      ensures Valid()
      ensures diagram == encoded
      ensures step == old(step) && textInput == old(textInput) && dataFlows == old(dataFlows)
      ensures trustBoundaries == old(trustBoundaries) && threatModel == old(threatModel) && error == old(error)
    {
      diagram := encoded;
    }

    /** "Next": on to step 2 with a description or a diagram, otherwise an error. */
    method Next()
      requires Valid() && step == 1
      modifies this
      ensures Valid()
      ensures old(textInput) != "" || old(diagram) != "" ==> step == 2 && error == old(error)
      ensures old(textInput) == "" && old(diagram) == "" ==> step == 1 && error == DescriptionMissing
      ensures textInput == old(textInput) && diagram == old(diagram) && dataFlows == old(dataFlows)
      ensures trustBoundaries == old(trustBoundaries) && threatModel == old(threatModel)
    {
      if textInput != "" || diagram != "" {
        step := 2;
      } else {
        error := DescriptionMissing;
      }
    }

    /** "Add Data Flow": appended only with all three fields; otherwise the list is
        unchanged and the error is set. */
    method AddDataFlow(source: string, destination: string, dataType: string)
      requires Valid() && step == 2
      modifies this
      ensures Valid()
      ensures source != "" && destination != "" && dataType != "" ==>
        dataFlows == old(dataFlows) + [DataFlow(source, destination, dataType)] && error == old(error)
      ensures !(source != "" && destination != "" && dataType != "") ==>
        dataFlows == old(dataFlows) && error == FlowIncomplete
      ensures step == old(step) && textInput == old(textInput) && diagram == old(diagram)
      ensures trustBoundaries == old(trustBoundaries) && threatModel == old(threatModel)
    {
      if source != "" && destination != "" && dataType != "" {
        dataFlows := dataFlows + [DataFlow(source, destination, dataType)];
      } else {
        error := FlowIncomplete;
      }
    }

    /** "Add Trust Boundary": appended only with both fields; otherwise the list is
        unchanged and the error is set. */
    method AddTrustBoundary(name: string, description: string)
      requires Valid() && step == 2
      modifies this
      ensures Valid()
      ensures name != "" && description != "" ==>
        trustBoundaries == old(trustBoundaries) + [TrustBoundary(name, description)] && error == old(error)
      ensures !(name != "" && description != "") ==>
        trustBoundaries == old(trustBoundaries) && error == BoundaryIncomplete
      ensures step == old(step) && textInput == old(textInput) && diagram == old(diagram)
      ensures dataFlows == old(dataFlows) && threatModel == old(threatModel)
    {
      if name != "" && description != "" {
        trustBoundaries := trustBoundaries + [TrustBoundary(name, description)];
      } else {
        error := BoundaryIncomplete;
      }
    }

    /** "Analyze Threats": with at least one flow or boundary, store the analysis and
        move to step 3; otherwise an error. */
    method Analyze()
      requires Valid() && step == 2
      modifies this
      ensures Valid()
      ensures old(dataFlows) != [] || old(trustBoundaries) != [] ==>
        && step == 3 && error == old(error)
        && threatModel == Some(AppEngine.Analysis(textInput, diagram, dataFlows, trustBoundaries))
      ensures old(dataFlows) == [] && old(trustBoundaries) == [] ==>
        step == 2 && threatModel == None && error == NothingToAnalyze
      ensures textInput == old(textInput) && diagram == old(diagram)
      ensures dataFlows == old(dataFlows) && trustBoundaries == old(trustBoundaries)
    {
      if dataFlows != [] || trustBoundaries != [] {
        var threats := AppEngine.AnalyzeThreats(textInput, diagram, dataFlows, trustBoundaries);
        threatModel := Some(threats);
        step := 3;
      } else {
        error := NothingToAnalyze;
      }
    }

    /** "Start Over": back to step 1 with everything emptied. */
    method StartOver()
      requires Valid() && step == 3
      modifies this
      ensures Valid()
      ensures step == 1 && textInput == "" && diagram == ""
      ensures dataFlows == [] && trustBoundaries == [] && threatModel == None && error == ""
    {
      step := 1;
      textInput := "";
      diagram := "";
      dataFlows := [];
      trustBoundaries := [];
      threatModel := None;
      error := "";
    }
  }
}
