/**
  The three-step wizard of threat_modeling_app.py. It differs from app.py's in
  three ways: the session starts (and starts over) from a worked e-commerce
  example rather than from nothing; the upload is kept apart from the
  never-assigned `diagram` entry; and a trust boundary's name is picked from a
  fixed list, with "Custom" standing for a typed-in name.
 */
module TutorialWizard {
  import opened ThreatModel
  import TutorialEngine

  const DefaultDescription: string :=
    "E-commerce web app with a React frontend, Node.js backend API, MySQL database, and Stripe payment gateway. "
    + "The app is public-facing, handles user authentication, and processes sensitive data like PII and payment details."

  const DefaultFlows: seq<DataFlow> := [
    DataFlow("Frontend", "Backend", "User Input (PII, Credentials)"),
    DataFlow("Backend", "Database", "User Data, Orders"),
    DataFlow("Backend", "Payment Gateway", "Payment Details")
  ]

  const DefaultBoundaries: seq<TrustBoundary> := [
    TrustBoundary("Frontend Boundary", "Untrusted client-side React app running on user devices"),
    TrustBoundary("Backend Boundary", "Trusted server-side Node.js API and MySQL database"),
    TrustBoundary("Payment Gateway Boundary", "External third-party Stripe service")
  ]

  /** The entries of the trust-boundary drop-down, "Custom" last. */
  const BoundaryOptions: seq<string> := [
    "Web Server Boundary",
    "Database Boundary",
    "API Boundary",
    "Frontend Boundary",
    "Payment Gateway Boundary",
    "Custom"
  ]

  const DescriptionMissing: string := "Please provide a system description or diagram."
  const FlowIncomplete: string := "Please fill in all data flow fields."
  const BoundaryInvalid: string := "Please provide a valid trust boundary name and description."
  const NothingToAnalyze: string := "Please add at least one data flow or trust boundary."

  /** The boundary name the form submits: the typed-in name when "Custom" is selected,
      the selected entry otherwise. */
  function BoundaryName(selected: string, customName: string): string {
    if selected == "Custom" then customName else selected
  }

  /** A trust boundary the wizard admits: a name other than "Custom" and a description. */
  predicate ValidBoundary(b: TrustBoundary) {
    b.name != "" && b.description != "" && b.name != "Custom"
  }

  /** Whether the "Add Trust Boundary" button appends, by what was selected and typed:
      a listed name needs only a description; "Custom" also needs a typed-in name that
      is neither empty nor itself "Custom". */
  lemma BoundaryAdmission(selected: string, customName: string, description: string)
    requires selected in BoundaryOptions
    ensures selected != "Custom" ==>
      (ValidBoundary(TrustBoundary(BoundaryName(selected, customName), description)) <==> description != "")
    ensures selected == "Custom" ==>
      (ValidBoundary(TrustBoundary(BoundaryName(selected, customName), description)) <==>
        customName != "" && customName != "Custom" && description != "")
  {
    var i :| 0 <= i < |BoundaryOptions| && BoundaryOptions[i] == selected;
    assert selected != "" by {
      assert |BoundaryOptions[i]| > 0;
    }
  }

  /** The example session satisfies the admission rules the wizard enforces. */
  lemma DefaultsAdmissible()
    ensures forall f <- DefaultFlows :: CompleteFlow(f)
    ensures forall b <- DefaultBoundaries :: ValidBoundary(b)
    ensures DefaultDescription != ""
  {
  }

  class Wizard {
    var step: nat
    var textInput: string
    /** The session's `diagram` entry: read by "Next", never assigned a file. */
    var diagram: string
    /** The uploaded image, base64-encoded; "" when there is none. */
    var uploadedImage: string
    var dataFlows: seq<DataFlow>
    var trustBoundaries: seq<TrustBoundary>
    var threatModel: Option<seq<TutorialEngine.Threat>>
    var error: string

    /** What every reachable session satisfies: a valid step; no diagram entry; only
        complete flows and valid boundaries; steps 2 and 3 reached only with a
        description or an image; a threat model exactly on step 3, the analysis of
        the current flows and boundaries, of which there is at least one. */
    ghost predicate Valid()
      reads this
    {
      && 1 <= step <= 3
      && diagram == ""
      && (forall f <- dataFlows :: CompleteFlow(f))
      && (forall b <- trustBoundaries :: ValidBoundary(b))
      && (step >= 2 ==> textInput != "" || uploadedImage != "" || diagram != "")
      && (step < 3 ==> threatModel == None)
      && (threatModel.Some? ==>
            && (dataFlows != [] || trustBoundaries != [])
            && threatModel.value == TutorialEngine.Analysis(dataFlows, trustBoundaries))
      && (step == 3 ==> threatModel.Some?)
    }

    /** The session as first initialised: the e-commerce example. */
    constructor ()
      ensures Valid()
      ensures step == 1 && textInput == DefaultDescription && diagram == "" && uploadedImage == ""
      ensures dataFlows == DefaultFlows && trustBoundaries == DefaultBoundaries
      ensures threatModel == None && error == ""
    {
      step := 1;
      textInput := DefaultDescription;
      diagram := "";
      uploadedImage := "";
      dataFlows := DefaultFlows;
      trustBoundaries := DefaultBoundaries;
      threatModel := None;
      error := "";
      DefaultsAdmissible();
    }

    /** Step 1's text area writes the description back on every render. */
    method EditDescription(text: string)
      requires Valid() && step == 1
      modifies this
      ensures Valid()
      ensures textInput == text
      ensures step == old(step) && diagram == old(diagram) && uploadedImage == old(uploadedImage)
      ensures dataFlows == old(dataFlows) && trustBoundaries == old(trustBoundaries)
      ensures threatModel == old(threatModel) && error == old(error)
    {
      textInput := text;
    }

    /** An upload on step 1 stores the image's encoding (the encoding itself is not modelled). */
    method Upload(encoded: string)
      requires Valid() && step == 1
      modifies this
      ensures Valid()
      ensures uploadedImage == encoded
      ensures step == old(step) && textInput == old(textInput) && diagram == old(diagram)
      ensures dataFlows == old(dataFlows) && trustBoundaries == old(trustBoundaries)
      ensures threatModel == old(threatModel) && error == old(error)
    {
      uploadedImage := encoded;
    }

    /** "Next": on to step 2 with a description, an image or a diagram, otherwise an error. */
    method Next()
      requires Valid() && step == 1
      modifies this
      ensures Valid()
      ensures old(textInput) != "" || old(uploadedImage) != "" || old(diagram) != "" ==>
        step == 2 && error == old(error)
      ensures old(textInput) == "" && old(uploadedImage) == "" && old(diagram) == "" ==>
        step == 1 && error == DescriptionMissing
      ensures textInput == old(textInput) && diagram == old(diagram) && uploadedImage == old(uploadedImage)
      ensures dataFlows == old(dataFlows) && trustBoundaries == old(trustBoundaries)
      ensures threatModel == old(threatModel)
    {
      if textInput != "" || uploadedImage != "" || diagram != "" {
        step := 2;
      } else {
        error := DescriptionMissing;
      }
    }

    /** "Add Data Flow": appended only with all three fields; otherwise the list is
        unchanged and the error is set. */
    method AddDataFlow(source: string, destination: string, dataType: string)
      requires Valid() && step == 2
      modifies this
      ensures Valid()
      ensures source != "" && destination != "" && dataType != "" ==>
        dataFlows == old(dataFlows) + [DataFlow(source, destination, dataType)] && error == old(error)
      ensures !(source != "" && destination != "" && dataType != "") ==>
        dataFlows == old(dataFlows) && error == FlowIncomplete
      ensures step == old(step) && textInput == old(textInput) && diagram == old(diagram)
      ensures uploadedImage == old(uploadedImage) && trustBoundaries == old(trustBoundaries)
      ensures threatModel == old(threatModel)
    {
      if source != "" && destination != "" && dataType != "" {
        dataFlows := dataFlows + [DataFlow(source, destination, dataType)];
      } else {
        error := FlowIncomplete;
      }
    }

    /** "Add Trust Boundary": the name is the selected entry or, for "Custom", the typed-in
        name; appended only when that name is neither empty nor "Custom" and a description
        is given; otherwise the list is unchanged and the error is set. */
    method AddTrustBoundary(selected: string, customName: string, description: string)
      requires Valid() && step == 2
      requires selected in BoundaryOptions
      modifies this
      ensures Valid()
      ensures ValidBoundary(TrustBoundary(BoundaryName(selected, customName), description)) ==>
        && trustBoundaries == old(trustBoundaries) + [TrustBoundary(BoundaryName(selected, customName), description)]
        && error == old(error)
      ensures !ValidBoundary(TrustBoundary(BoundaryName(selected, customName), description)) ==>
        trustBoundaries == old(trustBoundaries) && error == BoundaryInvalid
      ensures step == old(step) && textInput == old(textInput) && diagram == old(diagram)
      ensures uploadedImage == old(uploadedImage) && dataFlows == old(dataFlows)
      ensures threatModel == old(threatModel)
    {
      var name := selected;
      if selected == "Custom" {
        name := customName;
      }
      if name != "" && description != "" && name != "Custom" {
        trustBoundaries := trustBoundaries + [TrustBoundary(name, description)];
      } else {
        error := BoundaryInvalid;
      }
    }

    /** "Analyze Threats": with at least one flow or boundary, store the analysis and
        move to step 3; otherwise an error. */
    method Analyze()
      requires Valid() && step == 2
      modifies this
      ensures Valid()
      ensures old(dataFlows) != [] || old(trustBoundaries) != [] ==>
        && step == 3 && error == old(error)
        && threatModel == Some(TutorialEngine.Analysis(dataFlows, trustBoundaries))
      ensures old(dataFlows) == [] && old(trustBoundaries) == [] ==>
        step == 2 && threatModel == None && error == NothingToAnalyze
      ensures textInput == old(textInput) && diagram == old(diagram) && uploadedImage == old(uploadedImage)
      ensures dataFlows == old(dataFlows) && trustBoundaries == old(trustBoundaries)
    {
      if dataFlows != [] || trustBoundaries != [] {
        var threats := TutorialEngine.AnalyzeThreats(dataFlows, trustBoundaries);
        threatModel := Some(threats);
        step := 3;
      } else {
        error := NothingToAnalyze;
      }
    }

    /** "Start Over": back to step 1 and to the e-commerce example. */
    method StartOver()
      requires Valid() && step == 3
      modifies this
      ensures Valid()
      ensures step == 1 && textInput == DefaultDescription && diagram == "" && uploadedImage == ""
      ensures dataFlows == DefaultFlows && trustBoundaries == DefaultBoundaries
      ensures threatModel == None && error == ""
    {
      Restore();
    }

    /** Puts every entry back to the e-commerce example, as on first run. */
    method Restore()
      modifies this
      ensures Valid()
      ensures step == 1 && textInput == DefaultDescription && diagram == "" && uploadedImage == ""
      ensures dataFlows == DefaultFlows && trustBoundaries == DefaultBoundaries
      ensures threatModel == None && error == ""
    {
      step := 1;
      textInput := DefaultDescription;
      uploadedImage := "";
      diagram := "";
      dataFlows := DefaultFlows;
      trustBoundaries := DefaultBoundaries;
      threatModel := None;
      error := "";
      DefaultsAdmissible();
    }
  }
}
