/** What `exportCSV` and `exportPDF` (ViewModels/AppState.swift) put in the files they write. */
module Exports {
  import opened Common
  import opened Text
  import opened Csv
  import opened Visitors
  import opened Settings

  /** A file URL in the temporary directory. */
  datatype FileUrl = FileUrl(path: string)

  /**
   * `directory.appendingPathComponent(name)`, for a directory path written without a trailing
   * slash (`appendingPathComponent` would not double one that is there).
   */
  function InDirectory(directory: string, name: string): (u: FileUrl)
    ensures u.path == directory + "/" + name
  {
    FileUrl(directory + "/" + name)
  }

  // ---------------------------------------------------------------- CSV

  const CsvFileName: string := "OpenHouseSignIns.csv"

  const CsvHeaders: seq<string> :=
    ["Full Name", "Email", "Phone", "Has Agent", "Agent Name", "Agent Email", "Agent Phone", "Agreed Disclosure", "Signed At"]

  function YesNo(b: bool): (r: string)
    ensures r == "Yes" <==> b
    ensures r == "No" <==> !b
  {
    if b then "Yes" else "No"
  }

  /** `v.signedAt.map { df.string(from: $0) } ?? ""`, with the ISO 8601 formatter as a parameter. */
  function SignedAtText(v: Visitor, iso8601: Date -> string): (r: string)
    ensures v.signedAt.None? ==> r == ""
    ensures v.signedAt.Some? ==> r == iso8601(v.signedAt.value)
  {
    match v.signedAt
    case None => ""
    case Some(d) => iso8601(d)
  }

  /** The nine values one visitor contributes, in header order, before escaping. */
  function RowValues(v: Visitor, iso8601: Date -> string): (r: seq<string>)
    ensures |r| == |CsvHeaders|
  {
    [v.fullName, v.email, v.phone, YesNo(v.hasAgent), v.agentName, v.agentEmail, v.agentPhone,
     YesNo(v.agreedToDisclosure), SignedAtText(v, iso8601)]
  }

  /** The cells of one row: only the six free-text fields go through `escapeCSV`. */
  function RowCells(v: Visitor, iso8601: Date -> string, containsEmpty: string -> bool): (r: seq<string>)
    ensures |r| == |CsvHeaders|
    ensures r[0] == EscapeCsv(v.fullName, containsEmpty) && r[1] == EscapeCsv(v.email, containsEmpty)
    ensures r[2] == EscapeCsv(v.phone, containsEmpty) && r[4] == EscapeCsv(v.agentName, containsEmpty)
    ensures r[5] == EscapeCsv(v.agentEmail, containsEmpty) && r[6] == EscapeCsv(v.agentPhone, containsEmpty)
    ensures r[3] == RowValues(v, iso8601)[3] && r[7] == RowValues(v, iso8601)[7] && r[8] == RowValues(v, iso8601)[8]
  {
    [EscapeCsv(v.fullName, containsEmpty), EscapeCsv(v.email, containsEmpty), EscapeCsv(v.phone, containsEmpty),
     YesNo(v.hasAgent), EscapeCsv(v.agentName, containsEmpty), EscapeCsv(v.agentEmail, containsEmpty),
     EscapeCsv(v.agentPhone, containsEmpty), YesNo(v.agreedToDisclosure), SignedAtText(v, iso8601)]
  }

  /** `r.joined(separator: ",")` */
  function CsvRow(v: Visitor, iso8601: Date -> string, containsEmpty: string -> bool): string
  {
    Join(RowCells(v, iso8601, containsEmpty), ",")
  }

  /** `headers.joined(separator: ",")` */
  function HeaderRow(): string
  {
    Join(CsvHeaders, ",")
  }

  /** One row per visitor, in list order. */
  function CsvRows(visitors: seq<Visitor>, iso8601: Date -> string, containsEmpty: string -> bool): (r: seq<string>)
    ensures |r| == |visitors|
    ensures forall k :: 0 <= k < |visitors| ==> r[k] == CsvRow(visitors[k], iso8601, containsEmpty)
    decreases |visitors|
  {
    if visitors == [] then []
    else
      var init := visitors[..|visitors| - 1];
      var r := CsvRows(init, iso8601, containsEmpty) + [CsvRow(visitors[|visitors| - 1], iso8601, containsEmpty)];
      assert forall k :: 0 <= k < |init| ==> init[k] == visitors[k];
      r
  }

  /** Rows for one more visitor extend the rows of the ones before. */
  lemma CsvRowsAppend(visitors: seq<Visitor>, i: nat, iso8601: Date -> string, containsEmpty: string -> bool)
    requires i < |visitors|
    ensures CsvRows(visitors[..i + 1], iso8601, containsEmpty)
         == CsvRows(visitors[..i], iso8601, containsEmpty) + [CsvRow(visitors[i], iso8601, containsEmpty)]
    ensures [HeaderRow()] + CsvRows(visitors[..i + 1], iso8601, containsEmpty)
         == ([HeaderRow()] + CsvRows(visitors[..i], iso8601, containsEmpty)) + [CsvRow(visitors[i], iso8601, containsEmpty)]
  {
    assert visitors[..i + 1][..i] == visitors[..i];
  }

  /** `rows.joined(separator: "")`: the header row, then the rows, with nothing between them. */
  function CsvDocument(visitors: seq<Visitor>, iso8601: Date -> string, containsEmpty: string -> bool): string
  {
    Join([HeaderRow()] + CsvRows(visitors, iso8601, containsEmpty), "")
  }

  /** With no visitors the document is the header row alone. */
  lemma CsvDocumentEmpty(iso8601: Date -> string, containsEmpty: string -> bool)
    ensures CsvDocument([], iso8601, containsEmpty) == HeaderRow()
  {
    assert [HeaderRow()] + CsvRows([], iso8601, containsEmpty) == [HeaderRow()];
  }

  /** One more visitor appends exactly that visitor's row: rows follow the list order. */
  lemma CsvDocumentAppend(visitors: seq<Visitor>, v: Visitor, iso8601: Date -> string, containsEmpty: string -> bool)
    ensures CsvDocument(visitors + [v], iso8601, containsEmpty)
         == CsvDocument(visitors, iso8601, containsEmpty) + CsvRow(v, iso8601, containsEmpty)
  {
    var rows := [HeaderRow()] + CsvRows(visitors, iso8601, containsEmpty);
    assert [HeaderRow()] + CsvRows(visitors + [v], iso8601, containsEmpty) == rows + [CsvRow(v, iso8601, containsEmpty)];
    JoinEmptyAppend(rows, CsvRow(v, iso8601, containsEmpty));
  }

  /** The header row reads back as the nine column names. */
  lemma HeaderRoundTrip()
    ensures ParseRecord(HeaderRow()) == Some(CsvHeaders)
  {
    forall k | 0 <= k < |CsvHeaders|
      ensures Encodes(CsvHeaders[k], CsvHeaders[k])
    {
      PlainText(CsvHeaders[k]);
    }
    RecordRoundTrip(CsvHeaders, CsvHeaders);
  }

  /** A text made of letters and spaces is its own cell. */
  lemma PlainText(s: string)
    requires forall i :: 0 <= i < |s| ==> s[i] == ' ' || 'A' <= s[i] <= 'Z' || 'a' <= s[i] <= 'z'
    ensures Encodes(s, s)
  {
  }

  /**
   * A visitor's row reads back as its nine values, whatever the text fields hold, provided the
   * formatted date needs no quoting (ISO 8601 text has no comma or double quote).
   */
  lemma RowRoundTrip(v: Visitor, iso8601: Date -> string, containsEmpty: string -> bool)
    requires v.signedAt.Some? ==> ',' !in iso8601(v.signedAt.value) && '"' !in iso8601(v.signedAt.value)
    ensures ParseRecord(CsvRow(v, iso8601, containsEmpty)) == Some(RowValues(v, iso8601))
  {
    var cells, values := RowCells(v, iso8601, containsEmpty), RowValues(v, iso8601);
    EscapeEncodes(v.fullName, containsEmpty);
    EscapeEncodes(v.email, containsEmpty);
    EscapeEncodes(v.phone, containsEmpty);
    EscapeEncodes(v.agentName, containsEmpty);
    EscapeEncodes(v.agentEmail, containsEmpty);
    EscapeEncodes(v.agentPhone, containsEmpty);
    assert forall k :: 0 <= k < |cells| ==> Encodes(cells[k], values[k]);
    RecordRoundTrip(cells, values);
  }

  // ---------------------------------------------------------------- PDF

  const PdfTitle: string := "Open House Sign-In Summary"

  /** The fallback for a missing `signedAt`, exactly as the source spells it (U+00E2 U+20AC U+201D). */
  const PdfPlaceholder: string := "\U{00E2}\U{20AC}\U{201D}"

  /** The visitor and settings fields a summary can show, one per line. */
  datatype Field = Property | BrokerageTeam | AgentOfRecord | VisitorName | Email | Phone | HasAgent
                 | AgentName | AgentEmail | AgentPhone | AgreedToDisclosure | SignedAt

  /** The caption the PDF draws in front of each field's value. */
  function PdfCaption(f: Field): string
  {
    match f
    case Property => "Property"
    case BrokerageTeam => "Brokerage/Team"
    case AgentOfRecord => "Agent of Record"
    case VisitorName => "Visitor"
    case Email => "Email"
    case Phone => "Phone"
    case HasAgent => "Has Agent"
    case AgentName => "Agent Name"
    case AgentEmail => "Agent Email"
    case AgentPhone => "Agent Phone"
    case AgreedToDisclosure => "Agreed to Disclosure"
    case SignedAt => "Signed At"
  }

  /** The text each field contributes to the PDF; a missing `signedAt` shows the placeholder. */
  function PdfValue(f: Field, s: AgentSettings, v: Visitor, localized: Date -> string): (r: string)
    ensures f == SignedAt && v.signedAt.None? ==> r == PdfPlaceholder
    ensures f == SignedAt && v.signedAt.Some? ==> r == localized(v.signedAt.value)
  {
    match f
    case Property => s.propertyAddress
    case BrokerageTeam => s.brokerageTeam
    case AgentOfRecord => s.agentOfRecord
    case VisitorName => v.fullName
    case Email => v.email
    case Phone => v.phone
    case HasAgent => YesNo(v.hasAgent)
    case AgentName => v.agentName
    case AgentEmail => v.agentEmail
    case AgentPhone => v.agentPhone
    case AgreedToDisclosure => YesNo(v.agreedToDisclosure)
    case SignedAt => if v.signedAt.Some? then localized(v.signedAt.value) else PdfPlaceholder
  }

  function When(c: bool, f: Field): seq<Field>
  {
    if c then [f] else []
  }

  /** The settings lines at the top: the property always, the other two when non-empty. */
  function SettingsFields(s: AgentSettings): seq<Field>
  {
    [Property] + When(s.brokerageTeam != "", BrokerageTeam) + When(s.agentOfRecord != "", AgentOfRecord)
  }

  /** The agent lines, drawn only for a visitor who has an agent, each when non-empty. */
  function AgentFields(v: Visitor): seq<Field>
  {
    When(v.hasAgent && v.agentName != "", AgentName)
    + When(v.hasAgent && v.agentEmail != "", AgentEmail)
    + When(v.hasAgent && v.agentPhone != "", AgentPhone)
  }

  /** The fields the PDF summary draws, in drawing order. */
  function PdfFields(s: AgentSettings, v: Visitor): seq<Field>
  {
    SettingsFields(s) + [VisitorName, Email, Phone, HasAgent] + AgentFields(v) + [AgreedToDisclosure, SignedAt]
  }

  /** `drawLine("Caption: value")` */
  function PdfLine(f: Field, s: AgentSettings, v: Visitor, localized: Date -> string): string
  {
    PdfCaption(f) + ": " + PdfValue(f, s, v, localized)
  }

  /** The body lines of the PDF summary: one line per drawn field. */
  function PdfLines(s: AgentSettings, v: Visitor, localized: Date -> string): (r: seq<string>)
    ensures |r| == |PdfFields(s, v)|
    ensures forall k :: 0 <= k < |r| ==> r[k] == PdfLine(PdfFields(s, v)[k], s, v, localized)
  {
    var fields := PdfFields(s, v);
    seq(|fields|, k requires 0 <= k < |fields| => PdfLine(fields[k], s, v, localized))
  }

  /**
   * Which lines the PDF summary draws: the optional settings lines only when that setting is
   * non-empty, an agent line only when the visitor has an agent and that field is non-empty,
   * and every other field always.
   */
  lemma PdfLineSelection(s: AgentSettings, v: Visitor)
    ensures BrokerageTeam in PdfFields(s, v) <==> s.brokerageTeam != ""
    ensures AgentOfRecord in PdfFields(s, v) <==> s.agentOfRecord != ""
    ensures AgentName in PdfFields(s, v) <==> v.hasAgent && v.agentName != ""
    ensures AgentEmail in PdfFields(s, v) <==> v.hasAgent && v.agentEmail != ""
    ensures AgentPhone in PdfFields(s, v) <==> v.hasAgent && v.agentPhone != ""
    ensures forall f :: (f in [Property, VisitorName, Email, Phone, HasAgent, AgreedToDisclosure, SignedAt]
      ==> f in PdfFields(s, v))
    ensures 7 <= |PdfFields(s, v)| <= 12
  {
  }

  /** `"OpenHouse_\(visitor.id.uuidString.prefix(8)).pdf"` */
  function PdfFileName(id: Uuid): (r: string)
    ensures |r| == 14 + (if |id.uuidString| < 8 then |id.uuidString| else 8)
    ensures r[..10] == "OpenHouse_" && r[|r| - 4..] == ".pdf"
    ensures r[10..|r| - 4] <= id.uuidString
  {
    var p := Prefix(id.uuidString, 8);
    var r := "OpenHouse_" + p + ".pdf";
    assert r[10..|r| - 4] == p;
    r
  }

  /** The signature block is drawn when PNG bytes are stored and decode as an image. */
  function ShowsSignature(v: Visitor, isImage: Bytes -> bool): (b: bool)
    ensures b <==> v.signatureImagePNGData.Some? && isImage(v.signatureImagePNGData.value)
  {
    match v.signatureImagePNGData
    case None => false
    case Some(data) => isImage(data)
  }

  /** What one PDF page shows: the title, the body lines and, optionally, the captioned signature. */
  datatype PdfSummary = PdfSummary(title: string, lines: seq<string>, signature: Option<Bytes>)

  function PdfContent(s: AgentSettings, v: Visitor, localized: Date -> string, isImage: Bytes -> bool): (p: PdfSummary)
    ensures p.title == PdfTitle && p.lines == PdfLines(s, v, localized)
    ensures p.signature.Some? <==> ShowsSignature(v, isImage)
    ensures p.signature.Some? ==> p.signature == v.signatureImagePNGData
  {
    PdfSummary(PdfTitle, PdfLines(s, v, localized),
               if ShowsSignature(v, isImage) then v.signatureImagePNGData else None)
  }
}
