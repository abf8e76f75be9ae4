/** The spreadsheet data access for experts and requests: the two row
    mappers, the decision chain that falls back to built-in sample data,
    lookup of a request by id and selection of experts by sector. The
    remote spreadsheet service and the environment are inputs. */
module GoogleSheets {
  import opened Base
  import opened Seqs
  import opened Text

  /** A community member offering help. `id` and `enrichData` are optional
      in the record type; the row mapper always fills both. */
  datatype Expert = Expert(
    id: Option<string>,
    fullName: string,
    companyName: string,
    sector: string,
    domain: string,
    role: string,
    phone: string,
    email: string,
    linkedin: string,
    location: string,
    availability: string,
    enrichData: Option<string>)

  /** An anonymised help request. `status` holds whatever the sheet cell
      says (the record type names four values but nothing checks them). */
  datatype Request = Request(
    requestId: string,
    requesterPhone: string,
    requestMessage: string,
    sector: string,
    domain: string,
    status: string,
    helperId: string,
    helperName: string,
    createdAt: string,
    completionDate: Option<string>,
    summary: string,
    urgency: string)

  /** The four request statuses the record type names. */
  datatype Status = ExpertContacted | Matched | ExpertDeclined | Completed {
    function Name(): string {
      match this
      case ExpertContacted => "expert_contacted"
      case Matched => "matched"
      case ExpertDeclined => "expert_declined"
      case Completed => "completed"
    }
  }

  /** The spreadsheet used when the environment names none. */
  const DefaultSheetId: string := "1Fp0FdS3TOicZSb7FZChuRdGybExr7xu1i7G_fOHcbEo"

  /** The columns read from a data tab, appended to the tab's name. */
  const DataColumns: string := "!A2:L"

  /** The module's configuration, read from the environment at load. */
  datatype Config = Config(apiKey: string, expertSheetId: string, requestSheetId: string)

  /** Each setting is the environment's value, or its default when that is
      missing or empty; the spreadsheet ids are therefore never empty. */
  function ConfigFromEnv(envExpertSheetId: string, envRequestSheetId: string, envApiKey: string): (c: Config)
    ensures c.expertSheetId != "" && c.requestSheetId != ""
    ensures envExpertSheetId != "" ==> c.expertSheetId == envExpertSheetId
    ensures envExpertSheetId == "" ==> c.expertSheetId == DefaultSheetId
    ensures envRequestSheetId != "" ==> c.requestSheetId == envRequestSheetId
    ensures envRequestSheetId == "" ==> c.requestSheetId == DefaultSheetId
    ensures c.apiKey == envApiKey
  {
    Config(
      envApiKey,
      if envExpertSheetId != "" then envExpertSheetId else DefaultSheetId,
      if envRequestSheetId != "" then envRequestSheetId else DefaultSheetId)
  }

  /** The built-in sample experts. */
  const SampleExperts: seq<Expert> := [
    Expert(Some("1"), "John Doe", "Tech Solutions", "Technology", "Software Development",
           "Senior Developer", "+1234567890", "john@example.com", "linkedin.com/in/johndoe",
           "Tel Aviv", "Weekdays", None)
  ]

  /** The built-in sample requests. */
  const SampleRequests: seq<Request> := [
    Request("REQ001", "+9876543210", "Need help with software development project",
            "Technology", "Software Development", "matched", "1", "John Doe", "2025-03-01",
            None, "Looking for guidance on React project structure", "Medium")
  ]

  /** The expert row mapper: the i-th row gets id `String(i + 1)` and
      column k feeds field k, a missing or empty cell giving `''`. */
  function RowToExpert(row: Row, index: nat): Expert {
    Expert(
      Some(NatToString(index + 1)),
      Cell(row, 0), Cell(row, 1), Cell(row, 2), Cell(row, 3), Cell(row, 4),
      Cell(row, 5), Cell(row, 6), Cell(row, 7), Cell(row, 8), Cell(row, 9),
      Some(Cell(row, 10)))
  }

  /** The eleven data columns an expert occupies, in sheet order. */
  function ExpertToRow(e: Expert): Row {
    [e.fullName, e.companyName, e.sector, e.domain, e.role, e.phone,
     e.email, e.linkedin, e.location, e.availability, e.enrichData.GetOr("")]
  }

  /** The mapper is total: field k of the expert is cell k of the row
      (empty when missing), and the id is the row's 1-based number. */
  lemma ExpertColumns(row: Row, index: nat)
    ensures ExpertToRow(RowToExpert(row, index)) == seq(11, k requires 0 <= k < 11 => Cell(row, k))
    ensures RowToExpert(row, index).id == Some(NatToString(index + 1))
    ensures AllDigits(RowToExpert(row, index).id.value)
    ensures DecimalValue(RowToExpert(row, index).id.value) == index + 1
    ensures RowToExpert(row, index).enrichData == Some(Cell(row, 10))
  {
    DecimalRoundTrip(index + 1);
  }

  /** Writing an expert out as a row and mapping it back gives the expert,
      for records carrying their row's id and an enrichment field. */
  lemma ExpertRowRoundTrip(e: Expert, index: nat)
    requires e.id == Some(NatToString(index + 1)) && e.enrichData.Some?
    ensures RowToExpert(ExpertToRow(e), index) == e
  {
  }

  /** `rows.map(...)` in `getExperts`. */
  function MapExperts(rows: seq<Row>): (es: seq<Expert>)
    ensures |es| == |rows|
    ensures forall i :: 0 <= i < |rows| ==> es[i] == RowToExpert(rows[i], i)
  {
    seq(|rows|, i requires 0 <= i < |rows| => RowToExpert(rows[i], i))
  }

  /** The request row mapper: an empty status becomes `expert_contacted`,
      an empty completion date becomes absent, every other missing or empty
      cell becomes `''`. */
  function RowToRequest(row: Row): Request {
    Request(
      Cell(row, 0), Cell(row, 1), Cell(row, 2), Cell(row, 3), Cell(row, 4),
      if Cell(row, 5) != "" then row[5] else ExpertContacted.Name(),
      Cell(row, 6), Cell(row, 7), Cell(row, 8),
      if Cell(row, 9) != "" then Some(row[9]) else None,
      Cell(row, 10), Cell(row, 11))
  }

  /** The twelve data columns a request occupies, in sheet order. */
  function RequestToRow(q: Request): Row {
    [q.requestId, q.requesterPhone, q.requestMessage, q.sector, q.domain, q.status,
     q.helperId, q.helperName, q.createdAt, q.completionDate.GetOr(""), q.summary, q.urgency]
  }

  /** The mapper is total: its status is never empty, its completion date
      is absent exactly when that cell is empty, and every column comes
      back unchanged except an empty status cell. */
  lemma RequestColumns(row: Row)
    ensures RowToRequest(row).status != ""
    ensures RowToRequest(row).completionDate.None? <==> Cell(row, 9) == ""
    ensures RequestToRow(RowToRequest(row)) ==
            seq(12, k requires 0 <= k < 12 =>
                if k == 5 && Cell(row, 5) == "" then ExpertContacted.Name() else Cell(row, k))
  {
  }

  /** Writing a request out as a row and mapping it back gives the request,
      for records with a status and without an empty completion date. */
  lemma RequestRowRoundTrip(q: Request)
    requires q.status != "" && q.completionDate != Some("")
    ensures RowToRequest(RequestToRow(q)) == q
  {
  }

  /** `rows.map(...)` in `getRequests`. */
  function MapRequests(rows: seq<Row>): (qs: seq<Request>)
    ensures |qs| == |rows|
    ensures forall i :: 0 <= i < |rows| ==> qs[i] == RowToRequest(rows[i])
  {
    seq(|rows|, i requires 0 <= i < |rows| => RowToRequest(rows[i]))
  }

  /** `getExperts`: without an API key, the sample set; otherwise the tab
      names are read, and with at least one tab its rows are read. Failing
      reads, no tabs and no rows all give the sample set. */
  function GetExperts(cfg: Config, remote: Remote): (es: seq<Expert>)
    ensures |es| > 0
  {
    if cfg.apiKey == "" then SampleExperts
    else
      match remote.sheetNames(cfg.expertSheetId)
      case Failed(_) => SampleExperts
      case Ok(names) =>
        if |names| == 0 then SampleExperts
        else
          match remote.values(cfg.expertSheetId, names[0] + DataColumns)
          case Failed(_) => SampleExperts
          case Ok(rows) => if |rows| == 0 then SampleExperts else MapExperts(rows)
  }

  /** The decision chain of `getExperts`, case by case. */
  lemma GetExpertsDecisions(cfg: Config, remote: Remote, other: Remote)
    ensures cfg.apiKey == "" ==> GetExperts(cfg, remote) == SampleExperts
    ensures cfg.apiKey == "" ==> GetExperts(cfg, remote) == GetExperts(cfg, other)
    ensures cfg.apiKey != "" && remote.sheetNames(cfg.expertSheetId).Failed? ==>
              GetExperts(cfg, remote) == SampleExperts
    ensures cfg.apiKey != "" && remote.sheetNames(cfg.expertSheetId) == Ok([]) ==>
              GetExperts(cfg, remote) == SampleExperts
    ensures cfg.apiKey != "" && remote.sheetNames(cfg.expertSheetId).Ok? ==>
              var names := remote.sheetNames(cfg.expertSheetId).value;
              |names| > 0 ==>
              var read := remote.values(cfg.expertSheetId, names[0] + DataColumns);
              GetExperts(cfg, remote) == if read.Failed? || read.value == [] then SampleExperts else MapExperts(read.value)
  {
  }

  /** `getRequests`: like `getExperts`, but the rows come from the second
      tab, and fewer than two tabs give the sample set. */
  function GetRequests(cfg: Config, remote: Remote): (qs: seq<Request>)
    ensures |qs| > 0
  {
    if cfg.apiKey == "" then SampleRequests
    else
      match remote.sheetNames(cfg.requestSheetId)
      case Failed(_) => SampleRequests
      case Ok(names) =>
        if |names| <= 1 then SampleRequests
        else
          // the second tab; the source's fallback to the first tab here is
          // dead, since fewer than two tabs returned above
          match remote.values(cfg.requestSheetId, names[1] + DataColumns)
          case Failed(_) => SampleRequests
          case Ok(rows) => if |rows| == 0 then SampleRequests else MapRequests(rows)
  }

  /** The decision chain of `getRequests`, case by case. */
  lemma GetRequestsDecisions(cfg: Config, remote: Remote, other: Remote)
    ensures cfg.apiKey == "" ==> GetRequests(cfg, remote) == SampleRequests
    ensures cfg.apiKey == "" ==> GetRequests(cfg, remote) == GetRequests(cfg, other)
    ensures cfg.apiKey != "" && remote.sheetNames(cfg.requestSheetId).Failed? ==>
              GetRequests(cfg, remote) == SampleRequests
    ensures cfg.apiKey != "" && remote.sheetNames(cfg.requestSheetId).Ok? &&
            |remote.sheetNames(cfg.requestSheetId).value| < 2 ==>
              GetRequests(cfg, remote) == SampleRequests
    ensures cfg.apiKey != "" && remote.sheetNames(cfg.requestSheetId).Ok? ==>
              var names := remote.sheetNames(cfg.requestSheetId).value;
              |names| >= 2 ==>
              var read := remote.values(cfg.requestSheetId, names[1] + DataColumns);
              GetRequests(cfg, remote) == if read.Failed? || read.value == [] then SampleRequests else MapRequests(read.value)
  {
  }

  function RequestIdIs(id: string): Request -> bool {
    (q: Request) => q.requestId == id
  }

  /** `getRequestById`: the first request with that id, or none when no
      request has it. */
  function GetRequestById(cfg: Config, remote: Remote, requestId: string): (r: Option<Request>)
    ensures var qs := GetRequests(cfg, remote);
            r.None? <==> forall j :: 0 <= j < |qs| ==> qs[j].requestId != requestId
    ensures var qs := GetRequests(cfg, remote);
            r.Some? ==> exists i :: 0 <= i < |qs| && qs[i] == r.value && r.value.requestId == requestId &&
                                    forall j :: 0 <= j < i ==> qs[j].requestId != requestId
  {
    Find(GetRequests(cfg, remote), RequestIdIs(requestId))
  }

  function SectorIs(sector: string): Expert -> bool {
    (e: Expert) => e.sector == sector
  }

  /** `experts.filter(expert => expert.sector === sector)`. */
  function WithSector(experts: seq<Expert>, sector: string): (r: seq<Expert>)
    ensures forall k :: 0 <= k < |r| ==> r[k].sector == sector && r[k] in experts
    ensures forall i :: 0 <= i < |experts| && experts[i].sector == sector ==> experts[i] in r
  {
    Filter(experts, SectorIs(sector))
  }

  /** The sector selection is the order-preserving subsequence at exactly
      the positions whose sector is equal. */
  lemma WithSectorKeepsOrder(experts: seq<Expert>, sector: string)
    ensures var r := WithSector(experts, sector);
            var ix := KeptIndices(experts, SectorIs(sector));
            |r| == |ix| &&
            (forall k :: 0 <= k < |r| ==> ix[k] < |experts| && r[k] == experts[ix[k]]) &&
            (forall k, l :: 0 <= k < l < |ix| ==> ix[k] < ix[l]) &&
            (forall i :: 0 <= i < |experts| ==> (i in ix <==> experts[i].sector == sector))
  {
    FilterIsKeptIndices(experts, SectorIs(sector));
  }

  /** `getExpertsBySector`: the experts of `getExperts` with that sector,
      all of them. */
  function GetExpertsBySector(cfg: Config, remote: Remote, sector: string): (r: seq<Expert>)
    ensures forall k :: 0 <= k < |r| ==> r[k].sector == sector && r[k] in GetExperts(cfg, remote)
    ensures forall i :: 0 <= i < |GetExperts(cfg, remote)| && GetExperts(cfg, remote)[i].sector == sector ==>
      GetExperts(cfg, remote)[i] in r
  {
    WithSector(GetExperts(cfg, remote), sector)
  }

  /** `getExpertsBySector` keeps the order of `getExperts`: it is the
      subsequence at exactly the positions whose sector is equal. */
  lemma GetExpertsBySectorKeepsOrder(cfg: Config, remote: Remote, sector: string)
    ensures var all := GetExperts(cfg, remote);
            var r := GetExpertsBySector(cfg, remote, sector);
            var ix := KeptIndices(all, SectorIs(sector));
            |r| == |ix| &&
            (forall k :: 0 <= k < |r| ==> ix[k] < |all| && r[k] == all[ix[k]]) &&
            (forall k, l :: 0 <= k < l < |ix| ==> ix[k] < ix[l]) &&
            (forall i :: 0 <= i < |all| ==> (i in ix <==> all[i].sector == sector))
  {
    WithSectorKeepsOrder(GetExperts(cfg, remote), sector);
  }

  /** Three Technology experts among two Finance ones: the selection is the
      three, in their order. */
  lemma SectorSelectionExample(t1: Expert, t2: Expert, t3: Expert, f1: Expert, f2: Expert)
    requires t1.sector == "Technology" && t2.sector == "Technology" && t3.sector == "Technology"
    requires f1.sector == "Finance" && f2.sector == "Finance"
    ensures WithSector([t1, f1, t2, f2, t3], "Technology") == [t1, t2, t3]
  {
    var p := SectorIs("Technology");
    assert [t1, f1, t2, f2, t3][..4] == [t1, f1, t2, f2];
    assert [t1, f1, t2, f2][..3] == [t1, f1, t2];
    assert [t1, f1, t2][..2] == [t1, f1];
    assert [t1, f1][..1] == [t1];
    assert [t1][..0] == [];
    assert Filter([t1], p) == [t1];
    assert Filter([t1, f1], p) == [t1];
    assert Filter([t1, f1, t2], p) == [t1, t2];
    assert Filter([t1, f1, t2, f2], p) == [t1, t2];
  }
}
