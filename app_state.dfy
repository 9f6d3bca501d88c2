/** `AppState` (ViewModels/AppState.swift): the sign-in flow's shared, observable state. */
module Flow {
  import opened Common
  import opened Text
  import Utf8
  import opened Visitors
  import opened Settings
  import opened Users
  import opened Persistence
  import opened Exports

  /** The routes `RootView` switches over: the four the enum declares and the two its views use besides. */
  datatype Route = Disclosure | Info | Signature | Done | Login | Crm

  const VisitorsKey: string := "openhouse.visitors"
  const SettingsKey: string := "openhouse.settings"

  class AppState {
    // navigation and data
    var route: Route
    var currentVisitor: Visitor
    var visitors: seq<Visitor>
    // settings and export
    var agentSettings: AgentSettings
    var showSettings: bool
    var showShareExporter: bool
    var exporterItems: seq<FileUrl>
    // read and written by the views
    var isAuthenticated: bool
    var authUsername: string
    var isSubmittingUser: bool
    var lastCreatedUser: Option<UserResponseDTO>
    var lastAPIError: Option<string>
    // `UserDefaults.standard` and the JSON coders it is used with
    var defaults: Store
    const visitorsCodec: Codec<seq<Visitor>>
    const settingsCodec: Codec<AgentSettings>

    /** `init() { load() }`, starting from the property defaults; `freshId` is the new visitor's `UUID()`. */
    constructor(defaults: Store, visitorsCodec: Codec<seq<Visitor>>, settingsCodec: Codec<AgentSettings>, freshId: Uuid)
      ensures route == Disclosure && currentVisitor == MakeVisitor(freshId) && IsDefault(currentVisitor)
      ensures visitors == Read(defaults, VisitorsKey, visitorsCodec).GetOr([])
      ensures agentSettings == Read(defaults, SettingsKey, settingsCodec).GetOr(DefaultSettings())
      ensures !showSettings && !showShareExporter && exporterItems == []
      ensures !isAuthenticated && authUsername == "" && !isSubmittingUser
      ensures lastCreatedUser.None? && lastAPIError.None?
      ensures this.defaults == defaults && this.visitorsCodec == visitorsCodec && this.settingsCodec == settingsCodec
    {
      route := Disclosure;
      currentVisitor := MakeVisitor(freshId);
      visitors := [];
      agentSettings := DefaultSettings();
      showSettings := false;
      showShareExporter := false;
      exporterItems := [];
      isAuthenticated := false;
      authUsername := "";
      isSubmittingUser := false;
      lastCreatedUser := None;
      lastAPIError := None;
      this.defaults := defaults;
      this.visitorsCodec := visitorsCodec;
      this.settingsCodec := settingsCodec;
      new;
      DefaultVisitor(freshId);
      Load();
    }

    /** `load`: each of the two values is replaced only when its key is present and its bytes decode. */
    method Load()
      modifies this`visitors, this`agentSettings
      ensures Read(defaults, VisitorsKey, visitorsCodec).Some? ==> visitors == Read(defaults, VisitorsKey, visitorsCodec).value
      ensures Read(defaults, VisitorsKey, visitorsCodec).None? ==> visitors == old(visitors)
      ensures Read(defaults, SettingsKey, settingsCodec).Some? ==> agentSettings == Read(defaults, SettingsKey, settingsCodec).value
      ensures Read(defaults, SettingsKey, settingsCodec).None? ==> agentSettings == old(agentSettings)
    {
      if VisitorsKey in defaults {
        var decoded := visitorsCodec.decode(defaults[VisitorsKey]);
        if decoded.Some? {
          visitors := decoded.value;
        }
      }
      if SettingsKey in defaults {
        var decoded := settingsCodec.decode(defaults[SettingsKey]);
        if decoded.Some? {
          agentSettings := decoded.value;
        }
      }
    }

    /** `save`: both keys written, each only when its value encodes; every other key kept. */
    method Save()
      modifies this`defaults
      ensures defaults == Write(Write(old(defaults), VisitorsKey, visitorsCodec, visitors), SettingsKey, settingsCodec, agentSettings)
      ensures RoundTrips(visitorsCodec) && visitorsCodec.encode(visitors).Some? ==>
        Read(defaults, VisitorsKey, visitorsCodec) == Some(visitors)
      ensures RoundTrips(settingsCodec) && settingsCodec.encode(agentSettings).Some? ==>
        Read(defaults, SettingsKey, settingsCodec) == Some(agentSettings)
      ensures forall k :: k in old(defaults) && k != VisitorsKey && k != SettingsKey ==> k in defaults && defaults[k] == old(defaults)[k]
    {
      var v := visitorsCodec.encode(visitors);
      if v.Some? {
        defaults := defaults[VisitorsKey := v.value];
      }
      var s := settingsCodec.encode(agentSettings);
      if s.Some? {
        defaults := defaults[SettingsKey := s.value];
      }
      if RoundTrips(visitorsCodec) && v.Some? {
        WriteThenRead(old(defaults), VisitorsKey, visitorsCodec, visitors);
        WriteOtherKey(Write(old(defaults), VisitorsKey, visitorsCodec, visitors), SettingsKey, settingsCodec, agentSettings, VisitorsKey, visitorsCodec);
      }
    }

    /** `save()` then `load()` changes nothing when the coders round-trip. */
    method SaveThenLoad()
      requires RoundTrips(visitorsCodec) && visitorsCodec.encode(visitors).Some?
      requires RoundTrips(settingsCodec) && settingsCodec.encode(agentSettings).Some?
      modifies this`defaults, this`visitors, this`agentSettings
      ensures visitors == old(visitors) && agentSettings == old(agentSettings)
    {
      Save();
      Load();
    }

    /** `resetCurrent`: a new default visitor, nothing else touched. */
    method ResetCurrent(freshId: Uuid)
      modifies this`currentVisitor
      ensures currentVisitor == MakeVisitor(freshId) && IsDefault(currentVisitor)
    {
      currentVisitor := MakeVisitor(freshId);
      DefaultVisitor(freshId);
    }

    /**
     * `completeSignature(with:)`: the signature bytes (`image.pngData()`) and the time are stored on
     * the current visitor, which is appended and saved, and the flow moves to Done.
     */
    method CompleteSignature(png: Option<Bytes>, now: Date)
      modifies this`currentVisitor, this`visitors, this`defaults, this`route
      ensures currentVisitor == old(currentVisitor).(signatureImagePNGData := png, signedAt := Some(now))
      ensures |visitors| == |old(visitors)| + 1
      ensures visitors[..|old(visitors)|] == old(visitors) && visitors[|old(visitors)|] == currentVisitor
      ensures currentVisitor.id == old(currentVisitor).id
      ensures defaults == Write(Write(old(defaults), VisitorsKey, visitorsCodec, visitors), SettingsKey, settingsCodec, agentSettings)
      ensures route == Done
    {
      currentVisitor := currentVisitor.(signatureImagePNGData := png);
      currentVisitor := currentVisitor.(signedAt := Some(now));
      visitors := visitors + [currentVisitor];
      Save();
      route := Done;
    }

    /**
     * `exportCSV`: the header and one row per visitor, joined, written as UTF-8 to
     * OpenHouseSignIns.csv in the temporary directory; no URL when the write fails.
     */
    method ExportCsv(temporaryDirectory: string, iso8601: Date -> string, containsEmpty: string -> bool, writeSucceeds: bool)
      returns (url: Option<FileUrl>, written: Bytes)
      ensures written == Utf8.Encode(CsvDocument(visitors, iso8601, containsEmpty))
      ensures url == if writeSucceeds then Some(InDirectory(temporaryDirectory, CsvFileName)) else None
    {
      var all := visitors;
      var rows: seq<string> := [Join(CsvHeaders, ",")];
      for i := 0 to |all|
        invariant rows == [HeaderRow()] + CsvRows(all[..i], iso8601, containsEmpty)
      {
        var r := RowCells(all[i], iso8601, containsEmpty);
        assert Join(r, ",") == CsvRow(all[i], iso8601, containsEmpty);
        CsvRowsAppend(all, i, iso8601, containsEmpty);
        rows := rows + [Join(r, ",")];
      }
      assert rows == [HeaderRow()] + CsvRows(all, iso8601, containsEmpty) by {
        assert all[..|all|] == all;
      }
      var csv := Join(rows, "");
      assert csv == CsvDocument(all, iso8601, containsEmpty);
      written := Utf8.Encode(csv);
      if writeSucceeds {
        url := Some(InDirectory(temporaryDirectory, CsvFileName));
      } else {
        url := None;
      }
    }

    /**
     * `exportPDF(for:)`: one page with the title, the selected lines and, when the PNG bytes decode
     * as an image, the captioned signature, written to OpenHouse_<first 8 of id>.pdf.
     */
    method ExportPdf(visitor: Visitor, temporaryDirectory: string, localized: Date -> string, isImage: Bytes -> bool,
                     writeSucceeds: bool)
      returns (url: Option<FileUrl>, page: PdfSummary)
      ensures page == PdfContent(agentSettings, visitor, localized, isImage)
      ensures url == if writeSucceeds then Some(InDirectory(temporaryDirectory, PdfFileName(visitor.id))) else None
    {
      var drawn: seq<Field> := [Property];
      if agentSettings.brokerageTeam != "" { drawn := drawn + [BrokerageTeam]; }
      if agentSettings.agentOfRecord != "" { drawn := drawn + [AgentOfRecord]; }
      assert drawn == SettingsFields(agentSettings);
      drawn := drawn + [VisitorName, Email, Phone, HasAgent];
      var agentLines: seq<Field> := [];
      if visitor.hasAgent {
        if visitor.agentName != "" { agentLines := agentLines + [AgentName]; }
        if visitor.agentEmail != "" { agentLines := agentLines + [AgentEmail]; }
        if visitor.agentPhone != "" { agentLines := agentLines + [AgentPhone]; }
      }
      assert agentLines == AgentFields(visitor);
      drawn := drawn + agentLines + [AgreedToDisclosure, SignedAt];
      assert drawn == PdfFields(agentSettings, visitor);
      var settings := agentSettings;
      var lines := seq(|drawn|, k requires 0 <= k < |drawn| => PdfLine(drawn[k], settings, visitor, localized));
      assert lines == PdfLines(settings, visitor, localized);
      var signature: Option<Bytes> := None;
      if visitor.signatureImagePNGData.Some? && isImage(visitor.signatureImagePNGData.value) {
        signature := visitor.signatureImagePNGData;
      }
      page := PdfSummary(PdfTitle, lines, signature);
      if writeSucceeds {
        url := Some(InDirectory(temporaryDirectory, PdfFileName(visitor.id)));
      } else {
        url := None;
      }
    }
  }
}
