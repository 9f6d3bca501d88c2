/** `DoneView` and `SummaryCard` (Views/DoneView.swift): the confirmation screen. */
module DoneView {
  import opened Common
  import opened Text
  import opened Visitors
  import opened Users
  import opened Flow
  import opened Exports
  import opened Settings

  /** The status label above the summary, with the text it shows. */
  datatype Status = Submitting | Synced(text: string) | Failed(text: string) | NoStatus

  const SubmittingText: string := "Submitting to server\U{2026}"

  /** `"Synced as #\(u.id) • \(u.first_name) \(u.last_name)"` */
  function SyncedText(u: UserResponseDTO): string
  {
    "Synced as #" + IntToString(u.id) + " \U{2022} " + u.first_name + " " + u.last_name
  }

  /**
   * Which label shows: submitting first, then the created user when there is one, then the error
   * when there is one, otherwise none.
   */
  function StatusLine(isSubmitting: bool, created: Option<UserResponseDTO>, apiError: Option<string>): (r: Status)
    ensures r.Submitting? <==> isSubmitting
    ensures r.Synced? <==> !isSubmitting && created.Some?
    ensures r.Synced? ==> r.text == SyncedText(created.value)
    ensures r.Failed? <==> !isSubmitting && created.None? && apiError.Some?
    ensures r.Failed? ==> r.text == apiError.value
    ensures r.NoStatus? <==> !isSubmitting && created.None? && apiError.None?
  {
    if isSubmitting then Submitting
    else if created.Some? then Synced(SyncedText(created.value))
    else if apiError.Some? then Failed(apiError.value)
    else NoStatus
  }

  /** The synced label carries the user's id in decimal right after `#`. */
  lemma SyncedTextId(u: UserResponseDTO)
    ensures SyncedText(u)[..11] == "Synced as #"
    ensures SyncedText(u)[11..11 + |IntToString(u.id)|] == IntToString(u.id)
    ensures IntValue(SyncedText(u)[11..11 + |IntToString(u.id)|]) == u.id
  {
    var t := SyncedText(u);
    assert t == "Synced as #" + (IntToString(u.id) + (" \U{2022} " + u.first_name + " " + u.last_name));
    IntToStringRoundTrip(u.id);
  }

  /** The fallback `SummaryCard` shows for a missing `signedAt`: an em dash. */
  const SummaryPlaceholder: string := "\U{2014}"

  /** The fields `SummaryCard` lists, in order: the agent rows only for a visitor who has an agent. */
  function SummaryFields(v: Visitor): (r: seq<Field>)
    ensures (AgentName in r) == v.hasAgent && (AgentEmail in r) == v.hasAgent && (AgentPhone in r) == v.hasAgent
    ensures forall f :: f in [VisitorName, Email, Phone, HasAgent, AgreedToDisclosure, SignedAt] ==> f in r
    ensures Property !in r && BrokerageTeam !in r && AgentOfRecord !in r
    ensures |r| == if v.hasAgent then 9 else 6
  {
    [VisitorName, Email, Phone, HasAgent]
    + (if v.hasAgent then [AgentName, AgentEmail, AgentPhone] else [])
    + [AgreedToDisclosure, SignedAt]
  }

  /** The caption of a summary row; the name and agreement rows are worded differently from the PDF. */
  function SummaryCaption(f: Field): string
  {
    match f
    case VisitorName => "Name"
    case AgreedToDisclosure => "Agreed Disclosure"
    case _ => PdfCaption(f)
  }

  /**
   * The value of a summary row: as in the PDF, except that an unsigned visitor shows the em dash.
   * The settings fields are never listed on the card and have no value there.
   */
  function SummaryValue(f: Field, v: Visitor, localized: Date -> string): (r: string)
    ensures f == SignedAt && v.signedAt.None? ==> r == SummaryPlaceholder
    ensures f == SignedAt && v.signedAt.Some? ==> r == localized(v.signedAt.value)
    ensures f != SignedAt && f in SummaryFields(v) ==> r == PdfValue(f, DefaultSettings(), v, localized)
  {
    match f
    case Property => ""
    case BrokerageTeam => ""
    case AgentOfRecord => ""
    case VisitorName => v.fullName
    case Email => v.email
    case Phone => v.phone
    case HasAgent => YesNo(v.hasAgent)
    case AgentName => v.agentName
    case AgentEmail => v.agentEmail
    case AgentPhone => v.agentPhone
    case AgreedToDisclosure => YesNo(v.agreedToDisclosure)
    case SignedAt => if v.signedAt.Some? then localized(v.signedAt.value) else SummaryPlaceholder
  }

  /** The rows of `SummaryCard`: caption and value, one per listed field. */
  function SummaryRows(v: Visitor, localized: Date -> string): (r: seq<(string, string)>)
    ensures |r| == |SummaryFields(v)|
    ensures forall k :: 0 <= k < |r| ==>
      r[k] == (SummaryCaption(SummaryFields(v)[k]), SummaryValue(SummaryFields(v)[k], v, localized))
  {
    var fields := SummaryFields(v);
    seq(|fields|, k requires 0 <= k < |fields| => (SummaryCaption(fields[k]), SummaryValue(fields[k], v, localized)))
  }

  /** No summary row is captioned for an agent field unless the visitor has an agent. */
  lemma SummaryAgentRows(v: Visitor, localized: Date -> string)
    ensures v.hasAgent <==> exists k :: 0 <= k < |SummaryRows(v, localized)| && SummaryRows(v, localized)[k].0 == "Agent Name"
  {
    var r, fields := SummaryRows(v, localized), SummaryFields(v);
    if v.hasAgent {
      assert fields[4] == AgentName;
      assert r[4].0 == "Agent Name";
    } else {
      forall k | 0 <= k < |r|
        ensures r[k].0 != "Agent Name"
      {
        assert fields[k] in fields;
      }
    }
  }

  /** The screen shown while `route == .done`. */
  class DoneScreen {
    const state: AppState

    constructor(state: AppState)
      ensures this.state == state
    {
      this.state := state;
    }

    /** The status label, read from the state. */
    function Status(): Status
      reads state
    {
      StatusLine(state.isSubmittingUser, state.lastCreatedUser, state.lastAPIError)
    }

    /** Finish: a fresh default visitor and back to the disclosure; the list is untouched. */
    method Finish(freshId: Uuid)
      requires state.route == Route.Done
      modifies state`currentVisitor, state`route
      ensures state.currentVisitor == MakeVisitor(freshId) && IsDefault(state.currentVisitor)
      ensures state.route == Disclosure
    {
      state.ResetCurrent(freshId);
      state.route := Disclosure;
    }

    /**
     * Print/Save PDF: export the current visitor's summary; only when a file URL comes back are the
     * exporter items set to it and the share sheet raised.
     */
    method ExportPdf(temporaryDirectory: string, localized: Date -> string, isImage: Bytes -> bool, writeSucceeds: bool)
      returns (page: PdfSummary)
      requires state.route == Route.Done
      modifies state`exporterItems, state`showShareExporter
      ensures page == PdfContent(state.agentSettings, state.currentVisitor, localized, isImage)
      ensures writeSucceeds ==>
        state.exporterItems == [InDirectory(temporaryDirectory, PdfFileName(state.currentVisitor.id))]
        && state.showShareExporter
      ensures !writeSucceeds ==>
        state.exporterItems == old(state.exporterItems) && state.showShareExporter == old(state.showShareExporter)
    {
      var url;
      url, page := state.ExportPdf(state.currentVisitor, temporaryDirectory, localized, isImage, writeSucceeds);
      if url.None? {
        return;
      }
      state.exporterItems := [url.value];
      state.showShareExporter := true;
    }
  }
}
