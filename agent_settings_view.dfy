/** `AgentSettingsView` (Views/AgentSettingsView.swift): the settings sheet. */
module AgentSettingsView {
  import opened Common
  import opened Visitors
  import opened Settings
  import opened Persistence
  import opened Exports
  import Utf8
  import opened Flow

  /** The sheet, presented while `showSettings` is set. */
  class SettingsSheet {
    const state: AppState

    constructor(state: AppState)
      ensures this.state == state
    {
      this.state := state;
    }

    /** The three text fields, bound to the settings: any text is accepted, the empty address too. */
    method EditSettings(propertyAddress: string, brokerageTeam: string, agentOfRecord: string)
      requires state.showSettings
      modifies state`agentSettings
      ensures state.agentSettings == AgentSettings(propertyAddress, brokerageTeam, agentOfRecord)
    {
      state.agentSettings := state.agentSettings.(propertyAddress := propertyAddress);
      state.agentSettings := state.agentSettings.(brokerageTeam := brokerageTeam);
      state.agentSettings := state.agentSettings.(agentOfRecord := agentOfRecord);
    }

    /** Clear All Sign-ins: no visitors, and the empty list saved; settings and current visitor kept. */
    method ClearAll()
      requires state.showSettings
      modifies state`visitors, state`defaults
      ensures state.visitors == []
      ensures state.defaults == Write(Write(old(state.defaults), VisitorsKey, state.visitorsCodec, []),
        SettingsKey, state.settingsCodec, state.agentSettings)
      ensures RoundTrips(state.visitorsCodec) && state.visitorsCodec.encode([]).Some? ==>
        Read(state.defaults, VisitorsKey, state.visitorsCodec) == Some([])
      ensures state.agentSettings == old(state.agentSettings) && state.currentVisitor == old(state.currentVisitor)
    {
      state.visitors := [];
      state.Save();
    }

    /** Save: persist, then dismiss the sheet. */
    method SaveAndDismiss()
      requires state.showSettings
      modifies state`defaults, state`showSettings
      ensures state.defaults == Write(Write(old(state.defaults), VisitorsKey, state.visitorsCodec, state.visitors),
        SettingsKey, state.settingsCodec, state.agentSettings)
      ensures RoundTrips(state.settingsCodec) && state.settingsCodec.encode(state.agentSettings).Some? ==>
        Read(state.defaults, SettingsKey, state.settingsCodec) == Some(state.agentSettings)
      ensures !state.showSettings
    {
      state.Save();
      state.showSettings := false;
    }

    /** Export CSV: the exporter items and the share flag are set only when a file URL comes back. */
    method ExportCsv(temporaryDirectory: string, iso8601: Date -> string, containsEmpty: string -> bool, writeSucceeds: bool)
      returns (written: Bytes)
      requires state.showSettings
      modifies state`exporterItems, state`showShareExporter
      ensures written == Utf8.Encode(CsvDocument(old(state.visitors), iso8601, containsEmpty))
      ensures writeSucceeds ==> state.exporterItems == [InDirectory(temporaryDirectory, CsvFileName)] && state.showShareExporter
      ensures !writeSucceeds ==>
        state.exporterItems == old(state.exporterItems) && state.showShareExporter == old(state.showShareExporter)
    {
      var url;
      url, written := state.ExportCsv(temporaryDirectory, iso8601, containsEmpty, writeSucceeds);
      if url.Some? {
        state.exporterItems := [url.value];
        state.showShareExporter := true;
      }
    }
  }
}
