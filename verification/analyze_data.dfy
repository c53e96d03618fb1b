/** The pure part of the session analysis: the parsed session records are
    normalised into a list, the recorded player positions are concatenated, and
    their horizontal coordinates are bucketed into zones of 320 units. The most
    visited zone is the one the exam AI later favours. */
module SessionAnalysis {
  import opened Options
  import Config

  /** A recorded player position; only `x` takes part in the zone analysis. */
  datatype Position = Position(x: real, y: real)

  /** The `player_positions` entry of a record: missing, a list, or something else. */
  datatype PositionsField = Absent | PositionList(positions: seq<Position>) | NotAList

  /** One parsed session record. `otherKeys` counts the keys other than
      `player_positions`; a record with no key at all is an empty (falsy) object. */
  datatype SessionRecord = SessionRecord(otherKeys: nat, positions: PositionsField)

  /** The parsed content of the sessions file: a list of records, a single record,
      or any other JSON value (null, a number, a string or a boolean), of which only
      its truthiness matters. */
  datatype SessionData =
    | RecordList(records: seq<SessionRecord>)
    | SingleRecord(record: SessionRecord)
    | Scalar(truthy: bool)

  /** One entry of the zone histogram. */
  datatype Bin = Bin(zone: int, count: nat)

  datatype ZoneStats = ZoneStats(topZone: int, distribution: seq<Bin>)

  datatype Summary = Summary(totalSessions: nat, zones: Option<ZoneStats>)

  datatype AnalysisResult = Failure(error: string) | Success(summary: Summary)

  const NoDataError := "No session data available"
  const InvalidFormatError := "Invalid session data format"

  /** Python truthiness of the parsed value. */
  predicate IsFalsy(data: SessionData) {
    match data
    case RecordList(rs) => |rs| == 0
    case SingleRecord(r) => r.otherKeys == 0 && r.positions.Absent?
    case Scalar(t) => !t
  }

  /** The zone of a horizontal coordinate: floor division by the zone width, so a
      negative coordinate falls in a negative zone. */
  function Zone(x: real): (z: int)
    ensures (Config.ZoneWidth * z) as real <= x < (Config.ZoneWidth * (z + 1)) as real
  {
    (x / Config.ZoneWidth as real).Floor
  }

  /** The positions a record contributes: those of a list-valued entry, none otherwise. */
  function PositionsOf(r: SessionRecord): seq<Position> {
    if r.positions.PositionList? then r.positions.positions else []
  }

  /** All positions of all records, concatenated in record order. */
  function AllPositions(rs: seq<SessionRecord>): seq<Position> {
    if |rs| == 0 then [] else AllPositions(rs[..|rs| - 1]) + PositionsOf(rs[|rs| - 1])
  }

  function ZonesOf(ps: seq<Position>): (zs: seq<int>)
    ensures |zs| == |ps|
    ensures forall i :: 0 <= i < |ps| ==> zs[i] == Zone(ps[i].x)
  {
    if |ps| == 0 then [] else ZonesOf(ps[..|ps| - 1]) + [Zone(ps[|ps| - 1].x)]
  }

  /** Zones in strictly ascending order, each present at least once. */
  predicate WellFormed(h: seq<Bin>) {
    && (forall i, j :: 0 <= i < j < |h| ==> h[i].zone < h[j].zone)
    && (forall i :: 0 <= i < |h| ==> h[i].count >= 1)
  }

  /** The count a histogram records for zone `z` (0 when `z` has no bin). */
  function CountIn(h: seq<Bin>, z: int): nat {
    if |h| == 0 then 0
    else if h[0].zone == z then h[0].count + CountIn(h[1..], z)
    else CountIn(h[1..], z)
  }

  /** The sum of all counts of a histogram. */
  function Total(h: seq<Bin>): nat {
    if |h| == 0 then 0 else h[0].count + Total(h[1..])
  }

  lemma {:induction false} CountInAbsent(h: seq<Bin>, z: int)
    requires forall i :: 0 <= i < |h| ==> h[i].zone != z
    ensures CountIn(h, z) == 0
  {
    if |h| > 0 {
      CountInAbsent(h[1..], z);
    }
  }

  /** Adds one visit of zone `z`, keeping the zones sorted. */
  function Insert(h: seq<Bin>, z: int): (h': seq<Bin>)
    requires WellFormed(h)
    ensures WellFormed(h')
    ensures |h'| > 0 && h'[0].zone == if |h| > 0 && h[0].zone < z then h[0].zone else z
  {
    if |h| == 0 then [Bin(z, 1)]
    else if h[0].zone == z then [Bin(z, h[0].count + 1)] + h[1..]
    else if z < h[0].zone then [Bin(z, 1)] + h
    else
      var rest := Insert(h[1..], z);
      assert forall i :: 0 <= i < |h[1..]| ==> h[0].zone < h[1..][i].zone;
      [h[0]] + rest
  }

  /** Inserting `z` adds one to the count of `z` and leaves every other count alone. */
  lemma {:induction false} InsertCount(h: seq<Bin>, z: int, y: int)
    requires WellFormed(h)
    ensures CountIn(Insert(h, z), y) == CountIn(h, y) + (if y == z then 1 else 0)
  {
    if |h| > 0 {
      var h' := Insert(h, z);
      if h[0].zone == z {
        assert h'[0] == Bin(z, h[0].count + 1) && h'[1..] == h[1..];
      } else if z < h[0].zone {
        assert h'[0] == Bin(z, 1) && h'[1..] == h;
      } else {
        assert h'[0] == h[0] && h'[1..] == Insert(h[1..], z);
        InsertCount(h[1..], z, y);
      }
    }
  }

  /** Inserting adds exactly one visit to the total. */
  lemma {:induction false} InsertTotal(h: seq<Bin>, z: int)
    requires WellFormed(h)
    ensures Total(Insert(h, z)) == Total(h) + 1
  {
    if |h| == 0 {
    } else if h[0].zone == z {
      assert Insert(h, z)[1..] == h[1..];
    } else if z < h[0].zone {
      assert Insert(h, z)[1..] == h;
    } else {
      assert Insert(h, z)[1..] == Insert(h[1..], z);
      InsertTotal(h[1..], z);
    }
  }

  /** The histogram of a sequence of zones, one visit at a time. */
  function Tally(zs: seq<int>): (h: seq<Bin>)
    ensures WellFormed(h)
    ensures forall z :: CountIn(h, z) == multiset(zs)[z]
    ensures Total(h) == |zs|
  {
    if |zs| == 0 then []
    else
      var init := zs[..|zs| - 1];
      var last := zs[|zs| - 1];
      assert zs == init + [last];
      var h0 := Tally(init);
      InsertTotal(h0, last);
      assert forall z :: CountIn(Insert(h0, last), z) == multiset(zs)[z] by {
        forall z
          ensures CountIn(Insert(h0, last), z) == multiset(zs)[z]
        {
          InsertCount(h0, last, z);
        }
      }
      Insert(h0, last)
  }

  /** The index of the first maximal count, as `argmax` picks it. */
  function FirstMaxIndex(h: seq<Bin>): (k: nat)
    requires |h| > 0
    ensures k < |h|
    ensures forall j :: 0 <= j < |h| ==> h[j].count <= h[k].count
    ensures forall j :: 0 <= j < k ==> h[j].count < h[k].count
  {
    if |h| == 1 then 0
    else
      var k := FirstMaxIndex(h[..|h| - 1]);
      if h[|h| - 1].count > h[k].count then |h| - 1 else k
  }

  /** In a well-formed histogram the bin of a zone holds exactly its count. */
  lemma {:induction false} CountInBin(h: seq<Bin>, j: int)
    requires WellFormed(h)
    requires 0 <= j < |h|
    ensures CountIn(h, h[j].zone) == h[j].count
  {
    if j == 0 {
      assert forall i :: 0 <= i < |h[1..]| ==> h[1..][i].zone != h[0].zone;
      CountInAbsent(h[1..], h[0].zone);
    } else {
      CountInBin(h[1..], j - 1);
    }
  }

  /** A zone with a positive count has a bin. */
  lemma {:induction false} BinOfCounted(h: seq<Bin>, z: int) returns (j: nat)
    requires CountIn(h, z) > 0
    ensures j < |h| && h[j].zone == z
  {
    if h[0].zone == z {
      j := 0;
    } else {
      var j' := BinOfCounted(h[1..], z);
      j := j' + 1;
    }
  }

  /** Bucketing, histogram and most visited zone of a non-empty list of positions. */
  function ZoneStatsOf(ps: seq<Position>): (s: ZoneStats)
    requires |ps| > 0
    ensures s.topZone in ZonesOf(ps)
  {
    var zs := ZonesOf(ps);
    var h := Tally(zs);
    var k := FirstMaxIndex(h);
    CountInBin(h, k);
    assert h[k].zone in multiset(zs);
    ZoneStats(h[k].zone, h)
  }

  function Summarize(rs: seq<SessionRecord>): Summary {
    var ps := AllPositions(rs);
    if |ps| == 0 then Summary(|rs|, None)
    else Summary(|rs|, Some(ZoneStatsOf(ps)))
  }

  /** The records the analysis sees: a single record counts as a list of one. */
  function RecordsOf(data: SessionData): seq<SessionRecord> {
    match data
    case RecordList(rs) => rs
    case SingleRecord(r) => [r]
    case Scalar(_) => []
  }

  /** The session analysis of already parsed data. */
  function Analyze(data: SessionData): (r: AnalysisResult)
    ensures r.Failure? <==> IsFalsy(data) || data.Scalar?
    ensures r.Failure? ==> r.error == if IsFalsy(data) then NoDataError else InvalidFormatError
    ensures r.Success? ==> r.summary.totalSessions == |RecordsOf(data)|
    ensures data.SingleRecord? ==> r.Success? ==> r.summary.totalSessions == 1
    ensures r.Success? ==> (r.summary.zones.None? <==> |AllPositions(RecordsOf(data))| == 0)
  {
    if IsFalsy(data) then Failure(NoDataError)
    else match data
      case SingleRecord(rec) => Success(Summarize([rec]))
      case RecordList(rs) => Success(Summarize(rs))
      case Scalar(_) => Failure(InvalidFormatError)
  }

  /** Concatenation of positions distributes over concatenation of record lists,
      so positions appear record by record, in record order. */
  lemma {:induction false} AllPositionsAppend(rs1: seq<SessionRecord>, rs2: seq<SessionRecord>)
    ensures AllPositions(rs1 + rs2) == AllPositions(rs1) + AllPositions(rs2)
    decreases |rs2|
  {
    if |rs2| == 0 {
      assert rs1 + rs2 == rs1;
    } else {
      var init := rs2[..|rs2| - 1];
      assert (rs1 + rs2)[..|rs1 + rs2| - 1] == rs1 + init;
      AllPositionsAppend(rs1, init);
    }
  }

  /** The distribution holds one bin per visited zone, in ascending zone order; each
      bin counts the positions that fall in its zone, and the counts add up to the
      number of positions. */
  lemma {:induction false} DistributionIsHistogram(ps: seq<Position>)
    requires |ps| > 0
    ensures var h := ZoneStatsOf(ps).distribution; var zs := ZonesOf(ps);
      && WellFormed(h)
      && Total(h) == |ps|
      && (forall i :: 0 <= i < |h| ==> h[i].count == multiset(zs)[h[i].zone])
      && (forall i :: 0 <= i < |ps| ==> exists j :: 0 <= j < |h| && h[j].zone == Zone(ps[i].x))
  {
    var zs := ZonesOf(ps);
    var h := Tally(zs);
    forall i | 0 <= i < |h|
      ensures h[i].count == multiset(zs)[h[i].zone]
    {
      CountInBin(h, i);
    }
    forall i | 0 <= i < |ps|
      ensures exists j :: 0 <= j < |h| && h[j].zone == Zone(ps[i].x)
    {
      assert zs[i] in multiset(zs);
      var j := BinOfCounted(h, zs[i]);
    }
  }

  /** The top zone is visited at least as often as any zone, and among the zones
      visited equally often it is the smallest. */
  lemma {:induction false} TopZoneIsSmallestMostVisited(ps: seq<Position>)
    requires |ps| > 0
    ensures var t := ZoneStatsOf(ps).topZone; var zs := ZonesOf(ps);
      && (forall z :: multiset(zs)[z] <= multiset(zs)[t])
      && (forall z :: multiset(zs)[z] == multiset(zs)[t] ==> t <= z)
  {
    var zs := ZonesOf(ps);
    var h := Tally(zs);
    var k := FirstMaxIndex(h);
    CountInBin(h, k);
    forall z
      ensures multiset(zs)[z] <= multiset(zs)[h[k].zone]
      ensures multiset(zs)[z] == multiset(zs)[h[k].zone] ==> h[k].zone <= z
    {
      if CountIn(h, z) > 0 {
        var j := BinOfCounted(h, z);
        CountInBin(h, j);
      }
    }
  }
}
