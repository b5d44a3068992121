/** The four-step case builder: the stepper, the uploaded diagnostic assets and their
    analysis, the AI draft, and the description handed to the case generator. */
module CustomCaseBuilder {
  import opened Types
  import opened Text
  import opened GeminiService

  const FirstStep := 1
  const LastStep := 4

  function CategoryName(c: CaseCategory): string {
    match c
    case Cardiology => "Cardiology"
    case Respiratory => "Respiratory"
    case Gastroenterology => "Gastroenterology"
    case Neurology => "Neurology"
    case Trauma => "Trauma"
    case Pediatrics => "Pediatrics"
    case Endocrinology => "Endocrinology"
    case Psychiatry => "Psychiatry"
    case InfectiousDisease => "Infectious Disease"
    case Dermatology => "Dermatology"
    case Rheumatology => "Rheumatology"
  }

  datatype ShareVisibility = SharePublic | SharePrivate

  function VisibilityName(v: ShareVisibility): string {
    match v
    case SharePublic => "public"
    case SharePrivate => "private"
  }

  // ---- Assets ----

  /** `fileName.split('.')[0]`: the text before the first dot, or the whole name. */
  function BaseName(fileName: string): (r: string)
    ensures StartsWith(fileName, r)
    ensures '.' !in r
    ensures r == fileName || fileName[|r|] == '.'
    decreases |fileName|
  {
    if fileName == [] || fileName[0] == '.' then []
    else [fileName[0]] + BaseName(fileName[1..])
  }

  /** A dot-free name followed by an extension reads back as that name. */
  lemma {:induction false} BaseNameOfExtended(name: string, ext: string)
    requires '.' !in name
    ensures BaseName(name + "." + ext) == name
    decreases |name|
  {
    if name != [] {
      assert (name + "." + ext)[1..] == name[1..] + "." + ext;
      BaseNameOfExtended(name[1..], ext);
    }
  }

  /** `file.type.includes('image') ? 'Image' : 'Document'`. */
  function KindOfMime(mime: string): (r: AssetKind)
    ensures r == ImageAsset <==> Contains(mime, "image")
    ensures r != LabAsset
  {
    if Contains(mime, "image") then ImageAsset else DocumentAsset
  }

  const AssetIdPrefix := "asset-"

  /** The asset an upload becomes; the id is taken from the upload time. */
  function NewAsset(fileName: string, mime: string, dataUrl: string, now: nat): (a: DiagnosticAsset)
    ensures a.name == BaseName(fileName) && a.kind == KindOfMime(mime)
    ensures a.description == "" && a.url == dataUrl && a.mimeType == mime
    ensures StartsWith(a.id, AssetIdPrefix)
  {
    DiagnosticAsset(AssetIdPrefix + NatToString(now), BaseName(fileName), KindOfMime(mime), dataUrl, "", mime)
  }

  /** `removeAsset`: drops every asset with the id and keeps the rest in order. */
  function WithoutAsset(assets: seq<DiagnosticAsset>, id: string): (r: seq<DiagnosticAsset>)
    ensures IsSubsequence(r, assets)
    ensures forall i :: 0 <= i < |r| ==> r[i].id != id
    ensures forall i :: 0 <= i < |assets| && assets[i].id != id ==> assets[i] in r
  {
    FilterIsSubsequence(assets, (a: DiagnosticAsset) => a.id != id);
    Filter(assets, (a: DiagnosticAsset) => a.id != id)
  }

  /** Removing a just-uploaded asset whose id is new gives back the earlier list. */
  lemma {:induction false} RemoveUndoesUpload(assets: seq<DiagnosticAsset>, a: DiagnosticAsset)
    requires forall i :: 0 <= i < |assets| ==> assets[i].id != a.id
    ensures WithoutAsset(assets + [a], a.id) == assets
    decreases |assets|
  {
    var keep := (x: DiagnosticAsset) => x.id != a.id;
    if assets == [] {
      assert Filter([a], keep) == Filter([a][1..], keep);
    } else {
      assert (assets + [a])[1..] == assets[1..] + [a];
      RemoveUndoesUpload(assets[1..], a);
      assert assets == [assets[0]] + assets[1..];
    }
  }

  /** The assets with the one whose id matches rewritten by `f`; the others untouched. */
  function UpdateAsset(assets: seq<DiagnosticAsset>, id: string, f: DiagnosticAsset -> DiagnosticAsset)
    : (r: seq<DiagnosticAsset>)
    ensures |r| == |assets|
    ensures forall i :: 0 <= i < |r| ==> r[i] == if assets[i].id == id then f(assets[i]) else assets[i]
  {
    seq(|assets|, i requires 0 <= i < |assets| => if assets[i].id == id then f(assets[i]) else assets[i])
  }

  function Described(text: string): DiagnosticAsset -> DiagnosticAsset {
    (a: DiagnosticAsset) => a.(description := text)
  }

  function Renamed(name: string): DiagnosticAsset -> DiagnosticAsset {
    (a: DiagnosticAsset) => a.(name := name)
  }

  /** An analysis rewrites only the analysed asset's description: ids, names and the other
      assets stay as they were. */
  lemma AnalysisTouchesOneDescription(assets: seq<DiagnosticAsset>, id: string, text: string, i: int)
    requires 0 <= i < |assets|
    ensures var r := UpdateAsset(assets, id, Described(text));
      && r[i].id == assets[i].id && r[i].name == assets[i].name && r[i].kind == assets[i].kind
      && (assets[i].id == id ==> r[i].description == text)
      && (assets[i].id != id ==> r[i] == assets[i])
  {
  }

  /** The block an analysis adds to the key findings. */
  function AnalysisBlock(name: string, analysis: string): string {
    "[Asset Analysis: " + name + "]\n" + analysis
  }

  /** Empty findings become the block; otherwise the block follows a blank line. */
  function AppendAnalysis(findings: string, name: string, analysis: string): (r: string)
    ensures findings == "" ==> r == AnalysisBlock(name, analysis)
    ensures findings != "" ==> StartsWith(r, findings + "\n\n")
    ensures |r| >= |AnalysisBlock(name, analysis)|
    ensures r[|r| - |AnalysisBlock(name, analysis)|..] == AnalysisBlock(name, analysis)
  {
    if findings == "" then AnalysisBlock(name, analysis)
    else findings + "\n\n" + AnalysisBlock(name, analysis)
  }

  // ---- The assembled description ----

  datatype CaseForm = CaseForm(
    title: string, role: Role, difficulty: Difficulty, specialty: CaseCategory,
    patientContext: string, chiefComplaint: string, keyFindings: string, fullDraft: string)

  const InitialForm := CaseForm("", Doctor, Intermediate, Cardiology, "", "", "", "")

  /** The draft content: the full draft when there is one, else context and complaint. */
  function DraftContent(f: CaseForm): (r: string)
    ensures f.fullDraft != "" ==> r == f.fullDraft
    ensures f.fullDraft == "" ==> r == f.patientContext + " " + f.chiefComplaint
  {
    if f.fullDraft != "" then f.fullDraft else f.patientContext + " " + f.chiefComplaint
  }

  function AssetEntry(a: DiagnosticAsset): string {
    a.name + ": " + a.description
  }

  function AssetEntries(assets: seq<DiagnosticAsset>): (r: seq<string>)
    ensures |r| == |assets| && forall i :: 0 <= i < |r| ==> r[i] == AssetEntry(assets[i])
  {
    seq(|assets|, i requires 0 <= i < |assets| => AssetEntry(assets[i]))
  }

  /** The entries joined with "; ". */
  function DiagnosticsSummary(assets: seq<DiagnosticAsset>): string {
    Join(AssetEntries(assets), "; ")
  }

  /** `join` adds the separator only between entries. */
  lemma {:induction false} JoinSnoc(lines: seq<string>, x: string, sep: string)
    requires lines != []
    ensures Join(lines + [x], sep) == Join(lines, sep) + sep + x
    decreases |lines|
  {
    if |lines| > 1 {
      assert (lines + [x])[1..] == lines[1..] + [x];
      JoinSnoc(lines[1..], x, sep);
    }
  }

  /** The summary lists every asset's entry; no assets give an empty summary, and one more
      asset adds "; " and its entry at the end. */
  lemma SummaryFacts(assets: seq<DiagnosticAsset>, a: DiagnosticAsset)
    ensures assets == [] ==> DiagnosticsSummary(assets) == ""
    ensures forall i :: 0 <= i < |assets| ==> Contains(DiagnosticsSummary(assets), AssetEntry(assets[i]))
    ensures assets == [] ==> DiagnosticsSummary([a]) == AssetEntry(a)
    ensures assets != [] ==>
      DiagnosticsSummary(assets + [a]) == DiagnosticsSummary(assets) + "; " + AssetEntry(a)
  {
    forall i | 0 <= i < |assets|
      ensures Contains(DiagnosticsSummary(assets), AssetEntry(assets[i]))
    {
      JoinContains(AssetEntries(assets), "; ", i);
    }
    if assets != [] {
      assert AssetEntries(assets + [a]) == AssetEntries(assets) + [AssetEntry(a)];
      JoinSnoc(AssetEntries(assets), AssetEntry(a), "; ");
    }
  }

  /** The description handed to the generator, with its template's line breaks and
      indentation. */
  function MasterDescription(f: CaseForm, v: ShareVisibility, assets: seq<DiagnosticAsset>): (r: string)
    ensures Contains(r, "Draft Content: " + DraftContent(f) + "\n")
  {
    var before := "\n        Title: " + f.title
      + "\n        Role: " + RoleName(f.role)
      + "\n        Difficulty: " + DifficultyName(f.difficulty)
      + "\n        Specialty: " + CategoryName(f.specialty)
      + "\n        Visibility: " + VisibilityName(v)
      + "\n        ";
    var after := "        Diagnostics Summary: " + DiagnosticsSummary(assets) + "\n      ";
    var middle := "Draft Content: " + DraftContent(f) + "\n";
    ContainsInfix(before, middle, after);
    before + middle + after
  }

  const UnnamedPatient := "Unnamed Patient"
  const DraftNote := "[System Note: AI has fleshed out the vitals and initial script based on your inputs.]"

  /** The simulated AI draft: the form's fields under fixed headings, an empty title
      standing for an unnamed patient. */
  function DraftTemplate(f: CaseForm): (r: string)
    ensures StartsWith(r, "Patient: " + (if f.title == "" then UnnamedPatient else f.title) + "\n")
  {
    var head := "Patient: " + (if f.title == "" then UnnamedPatient else f.title) + "\n";
    var r := head + "Role: " + RoleName(f.role) + "\nContext: " + f.patientContext + "\nCC: " + f.chiefComplaint
      + "\n\nFindings: " + f.keyFindings + "\n\n" + DraftNote;
    assert r[..|head|] == head;
    r
  }

  // ---- The builder ----

  /** The builder's state; `draftSource` is the form as it stood when "Draft with AI" was
      clicked, which the pending timer builds the draft from. */
  datatype BuilderState = BuilderState(
    step: int, form: CaseForm, assets: seq<DiagnosticAsset>, analyzing: Option<string>,
    isDrafting: bool, draftSource: CaseForm, visibility: ShareVisibility, ownerCommunity: string,
    linkCase: bool)

  const InitialBuilder := BuilderState(FirstStep, InitialForm, [], None, false, InitialForm, SharePrivate,
                                       "General Hospital Residents", false)

  /** "Next" is offered below the last step, and on the first step only once there is a
      title. */
  predicate NextEnabled(s: BuilderState) {
    s.step < LastStep && !(s.step == FirstStep && s.form.title == "")
  }

  /** The patient-information step, where "Draft with AI" lives. */
  const DraftStep := 2

  /** "Draft with AI" is shown on the patient-information step while there is no draft, and
      is enabled with a patient background and no draft in progress. */
  predicate DraftEnabled(s: BuilderState) {
    s.step == DraftStep && s.form.fullDraft == "" && s.form.patientContext != "" && !s.isDrafting
  }

  class Builder {
    var state: BuilderState

    /** The step shown is always one of the four. */
    predicate Valid()
      reads this
    {
      FirstStep <= state.step <= LastStep
    }

    constructor ()
      ensures state == InitialBuilder && Valid()
    {
      state := InitialBuilder;
    }

    /** "Back", offered after the first step. */
    method Back()
      requires Valid() && state.step > FirstStep
      modifies this
      ensures state == old(state).(step := old(state).step - 1) && Valid()
    {
      state := state.(step := state.step - 1);
    }

    method Next()
      requires Valid() && NextEnabled(state)
      modifies this
      ensures state == old(state).(step := old(state).step + 1) && Valid()
      ensures old(state).step == FirstStep ==> state.form.title != ""
    {
      state := state.(step := state.step + 1);
    }

    /** Any edit of the form's inputs. */
    method Edit(f: CaseForm)
      requires Valid()
      modifies this
      ensures state == old(state).(form := f) && Valid()
    {
      state := state.(form := f);
    }

    /** The click: drafting starts and the timer captures the form's current fields. */
    method StartDraft()
      requires Valid() && DraftEnabled(state)
      modifies this
      ensures state == old(state).(isDrafting := true, draftSource := old(state).form) && Valid()
    {
      state := state.(isDrafting := true, draftSource := state.form);
    }

    /** The timer fires: the draft is built from the fields captured at the click, and only
        the draft text and the drafting flag change. */
    method FinishDraft()
      requires Valid()
      modifies this
      ensures state == old(state).(form := old(state).form.(fullDraft := DraftTemplate(old(state).draftSource)),
                                   isDrafting := false)
      ensures Valid()
    {
      state := state.(form := state.form.(fullDraft := DraftTemplate(state.draftSource)), isDrafting := false);
    }

    /** A read file becomes a new asset at the end of the list. */
    method Upload(fileName: string, mime: string, dataUrl: string, now: nat)
      requires Valid()
      modifies this
      ensures state == old(state).(assets := old(state).assets + [NewAsset(fileName, mime, dataUrl, now)])
      ensures Valid()
    {
      state := state.(assets := state.assets + [NewAsset(fileName, mime, dataUrl, now)]);
    }

    method RemoveAsset(id: string)
      requires Valid()
      modifies this
      ensures state == old(state).(assets := WithoutAsset(old(state).assets, id)) && Valid()
    {
      state := state.(assets := WithoutAsset(state.assets, id));
    }

    method RenameAsset(id: string, name: string)
      requires Valid()
      modifies this
      ensures state == old(state).(assets := UpdateAsset(old(state).assets, id, Renamed(name))) && Valid()
    {
      state := state.(assets := UpdateAsset(state.assets, id, Renamed(name)));
    }

    method DescribeAsset(id: string, text: string)
      requires Valid()
      modifies this
      ensures state == old(state).(assets := UpdateAsset(old(state).assets, id, Described(text))) && Valid()
    {
      state := state.(assets := UpdateAsset(state.assets, id, Described(text)));
    }

    /** "Analyze" is offered while no other analysis runs. */
    method StartAnalysis(asset: DiagnosticAsset)
      requires Valid() && state.analyzing.None?
      modifies this
      ensures state == old(state).(analyzing := Some(asset.id)) && Valid()
    {
      state := state.(analyzing := Some(asset.id));
    }

    /** The analysis arrives: the asset's description and the key findings take it. A call
        that throws only raises an alert. Either way the builder is free again. */
    method FinishAnalysis(asset: DiagnosticAsset, analysis: Result<string>)
      requires Valid()
      modifies this
      ensures analysis.Ok? ==>
        state == old(state).(assets := UpdateAsset(old(state).assets, asset.id, Described(analysis.value)),
                             form := old(state).form.(keyFindings :=
                               AppendAnalysis(old(state).form.keyFindings, asset.name, analysis.value)),
                             analyzing := None)
      ensures analysis.Err? ==> state == old(state).(analyzing := None)
      ensures Valid()
    {
      if analysis.Ok? {
        state := state.(assets := UpdateAsset(state.assets, asset.id, Described(analysis.value)),
                        form := state.form.(keyFindings :=
                          AppendAnalysis(state.form.keyFindings, asset.name, analysis.value)));
      }
      state := state.(analyzing := None);
    }

    method ChooseVisibility(v: ShareVisibility)
      requires Valid()
      modifies this
      ensures state == old(state).(visibility := v) && Valid()
    {
      state := state.(visibility := v);
    }

    method SetOwnerCommunity(name: string)
      requires Valid()
      modifies this
      ensures state == old(state).(ownerCommunity := name) && Valid()
    {
      state := state.(ownerCommunity := name);
    }

    method SetLinkCase(link: bool)
      requires Valid()
      modifies this
      ensures state == old(state).(linkCase := link) && Valid()
    {
      state := state.(linkCase := link);
    }

    /** "Save Scenario": what is handed to the generator. */
    method FinalSave() returns (description: string, assets: seq<DiagnosticAsset>, visibility: ShareVisibility)
      requires Valid()
      ensures description == MasterDescription(state.form, state.visibility, state.assets)
      ensures assets == state.assets && visibility == state.visibility
    {
      description := MasterDescription(state.form, state.visibility, state.assets);
      assets := state.assets;
      visibility := state.visibility;
    }
  }

  /** Edits made while the draft is pending do not reach it: the draft shows the form as it
      was at the click, and the edited fields are kept beside it. */
  method DraftIgnoresLaterEdits(b: Builder, f: CaseForm)
    requires b.Valid() && DraftEnabled(b.state)
    modifies b
    ensures b.state.form == f.(fullDraft := DraftTemplate(old(b.state.form)))
    ensures !b.state.isDrafting && b.Valid()
  {
    b.StartDraft();
    b.Edit(f);
    b.FinishDraft();
  }
}
