/** The per-event-type configuration record (rate, generated count, ntuple files,
    labels and paths) with its setter/getter pairs. */
module EventConfigs {

  /** The value an EventConfig holds, field by field. */
  datatype EventRecord = EventRecord(
    rate: real,
    nGenerated: int,
    ntupFiles: seq<string>,
    texLabel: string,
    name: string,
    ntupBaseDir: string,
    prunedPath: string)

  /** A default-constructed record: rate -1, nothing generated, empty strings. */
  const DefaultRecord := EventRecord(-1.0, 0, [], "", "", "", "")

  class EventConfig {
    var rate: real
    var nGenerated: int
    var ntupFiles: seq<string>
    var texLabel: string
    var name: string
    var ntupBaseDir: string
    var prunedPath: string

    function Value(): EventRecord
      reads this
    {
      EventRecord(rate, nGenerated, ntupFiles, texLabel, name, ntupBaseDir, prunedPath)
    }

    constructor ()
      ensures Value() == DefaultRecord
      ensures GetRate() == -1.0 && GetNGenerated() == 0
    {
      rate := -1.0;
      nGenerated := 0;
      ntupFiles := [];
      texLabel := "";
      name := "";
      ntupBaseDir := "";
      prunedPath := "";
    }

    function GetRate(): real reads this { rate }
    function GetNGenerated(): int reads this { nGenerated }
    function GetNtupFiles(): seq<string> reads this { ntupFiles }
    function GetTexLabel(): string reads this { texLabel }
    function GetName(): string reads this { name }
    function GetNtupBaseDir(): string reads this { ntupBaseDir }
    function GetPrunedPath(): string reads this { prunedPath }

    method SetRate(r: real)
      modifies this
      ensures GetRate() == r
      ensures Value() == old(Value()).(rate := r)
    {
      rate := r;
    }

    method SetNGenerated(n: int)
      modifies this
      ensures GetNGenerated() == n
      ensures Value() == old(Value()).(nGenerated := n)
    {
      nGenerated := n;
    }

    method SetNtupFiles(files: seq<string>)
      modifies this
      ensures GetNtupFiles() == files
      ensures Value() == old(Value()).(ntupFiles := files)
    {
      ntupFiles := files;
    }

    method SetTexLabel(s: string)
      modifies this
      ensures GetTexLabel() == s
      ensures Value() == old(Value()).(texLabel := s)
    {
      texLabel := s;
    }

    method SetName(s: string)
      modifies this
      ensures GetName() == s
      ensures Value() == old(Value()).(name := s)
    {
      name := s;
    }

    method SetNtupBaseDir(s: string)
      modifies this
      ensures GetNtupBaseDir() == s
      ensures Value() == old(Value()).(ntupBaseDir := s)
    {
      ntupBaseDir := s;
    }

    method SetPrunedPath(s: string)
      modifies this
      ensures GetPrunedPath() == s
      ensures Value() == old(Value()).(prunedPath := s)
    {
      prunedPath := s;
    }
  }

  /** The records a std::map of EventConfig objects holds, key by key. */
  predicate Holds(m: map<string, EventConfig>, records: map<string, EventRecord>)
    reads m.Values
  {
    m.Keys == records.Keys && forall k :: k in m ==> m[k].Value() == records[k]
  }

  /** Storing an object under a key stores its record under that key. */
  lemma HoldsAdd(m: map<string, EventConfig>, records: map<string, EventRecord>, k: string, c: EventConfig)
    requires Holds(m, records)
    ensures Holds(m[k := c], records[k := c.Value()])
  {
  }
}
