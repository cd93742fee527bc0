/**
  Central's flow ledger for one sensor: cumulative flow counters reported by the sensor become per-minute
  deltas. The two SQL tables are maps; one batch of reports is one transaction.
  Times are nanoseconds since the Unix epoch.
*/
module FlowLedger {
  import opened Options
  import opened MapSums

  datatype Volume = Volume(
    packets: nat, bytes: nat, packetsAToB: nat, packetsBToA: nat, bytesAToB: nat, bytesBToA: nat)

  /** One flow as reported; the sensor's zero time is `None`. */
  datatype Report = Report(id: string, srcIP: string, dstIP: string, lastSeen: Option<int>, volume: Volume)

  /** A report together with the capture time of its batch. */
  datatype Arrival = Arrival(report: Report, capturedAt: int)

  datatype Counter = Counter(volume: Volume, lastSeen: Option<int>)
  datatype Bucket = Bucket(volume: Volume, end: int)
  datatype Observation = Observation(id: string, at: int, volume: Volume)
  datatype Ledger = Ledger(counters: map<string, Counter>, buckets: map<(string, int), Bucket>)

  const MINUTE: int := 60_000_000_000
  const LOOKUP_BATCH := 1000
  const WRITE_BATCH := 500

  // ---------- One report at a time ----------

  predicate Complete(r: Report) { r.id != "" && r.srcIP != "" && r.dstIP != "" }

  function EventAt(r: Report, capturedAt: int): int {
    if r.lastSeen.Some? then r.lastSeen.value else capturedAt
  }

  function Minute(at: int): int { at / MINUTE * MINUTE }

  predicate AnyLower(a: Volume, b: Volume) {
    || a.packets < b.packets || a.bytes < b.bytes
    || a.packetsAToB < b.packetsAToB || a.packetsBToA < b.packetsBToA
    || a.bytesAToB < b.bytesAToB || a.bytesBToA < b.bytesBToA
  }

  /** A missing time reads as the epoch, and a counter at the epoch rejects nothing. */
  predicate Stale(stored: Counter, v: Volume, at: int) {
    var last := if stored.lastSeen.Some? then stored.lastSeen.value else 0;
    last != 0 && (at < last || (at == last && AnyLower(v, stored.volume)))
  }

  function Since(count: nat, stored: nat): nat { if count >= stored then count - stored else count }

  function Delta(previous: Option<Counter>, v: Volume): Volume {
    match previous
    case None => v
    case Some(c) => Volume(
      Since(v.packets, c.volume.packets), Since(v.bytes, c.volume.bytes),
      Since(v.packetsAToB, c.volume.packetsAToB), Since(v.packetsBToA, c.volume.packetsBToA),
      Since(v.bytesAToB, c.volume.bytesAToB), Since(v.bytesBToA, c.volume.bytesBToA))
  }

  predicate Moves(d: Volume) { d.packets > 0 || d.bytes > 0 }

  function Plus(a: Volume, b: Volume): Volume {
    Volume(a.packets + b.packets, a.bytes + b.bytes, a.packetsAToB + b.packetsAToB,
           a.packetsBToA + b.packetsBToA, a.bytesAToB + b.bytesAToB, a.bytesBToA + b.bytesBToA)
  }

  predicate Admitted(counters: map<string, Counter>, r: Report, at: int) {
    Complete(r) && (r.id in counters ==> !Stale(counters[r.id], r.volume, at))
  }

  function RowOf(o: Observation): (string, int) { (o.id, Minute(o.at)) }

  /** Adds one observation to its minute. */
  function Post(buckets: map<(string, int), Bucket>, o: Observation): map<(string, int), Bucket> {
    var k := RowOf(o);
    buckets[k := if k !in buckets then Bucket(o.volume, o.at)
                 else Bucket(Plus(buckets[k].volume, o.volume), if o.at > buckets[k].end then o.at else buckets[k].end)]
  }

  /** Overwrites a counter unless the stored one is newer. */
  function Store(counters: map<string, Counter>, r: Report, at: int): map<string, Counter> {
    if r.id in counters && counters[r.id].lastSeen.Some? && at < counters[r.id].lastSeen.value then counters
    else counters[r.id := Counter(r.volume, Some(at))]
  }

  function Apply(l: Ledger, r: Report, at: int): Ledger {
    if !Admitted(l.counters, r, at) then l
    else
      var d := Delta(Lookup(l.counters, r.id), r.volume);
      Ledger(Store(l.counters, r, at), if Moves(d) then Post(l.buckets, Observation(r.id, at, d)) else l.buckets)
  }

  function Fold(l: Ledger, xs: seq<Arrival>): Ledger {
    if xs == [] then l
    else
      var x := xs[|xs|-1];
      Apply(Fold(l, xs[..|xs|-1]), x.report, EventAt(x.report, x.capturedAt))
  }

  // ---------- A batch as the code runs it ----------

  function Kept(previous: map<string, Counter>, edges: seq<Report>, capturedAt: int): seq<Report> {
    if edges == [] then []
    else
      var r, before := edges[|edges|-1], Kept(previous, edges[..|edges|-1], capturedAt);
      if Admitted(previous, r, EventAt(r, capturedAt)) then before + [r] else before
  }

  function Observed(previous: map<string, Counter>, edges: seq<Report>, capturedAt: int): seq<Observation> {
    if edges == [] then []
    else
      var r, before := edges[|edges|-1], Observed(previous, edges[..|edges|-1], capturedAt);
      var at, d := EventAt(r, capturedAt), Delta(Lookup(previous, r.id), r.volume);
      if Admitted(previous, r, at) && Moves(d) then before + [Observation(r.id, at, d)] else before
  }

  function PostAll(buckets: map<(string, int), Bucket>, os: seq<Observation>): map<(string, int), Bucket> {
    if os == [] then buckets else Post(PostAll(buckets, os[..|os|-1]), os[|os|-1])
  }

  function StoreAll(counters: map<string, Counter>, rs: seq<Report>, capturedAt: int): map<string, Counter> {
    if rs == [] then counters
    else Store(StoreAll(counters, rs[..|rs|-1], capturedAt), rs[|rs|-1], EventAt(rs[|rs|-1], capturedAt))
  }

  /** Two rows of one INSERT hit the same bucket: the database refuses the statement. */
  predicate BucketClash(os: seq<Observation>) {
    exists i, j :: 0 <= i < j < |os| && i / WRITE_BATCH == j / WRITE_BATCH
                && RowOf(os[i]) == RowOf(os[j])
  }

  predicate CounterClash(rs: seq<Report>) {
    exists i, j :: 0 <= i < j < |rs| && i / WRITE_BATCH == j / WRITE_BATCH && rs[i].id == rs[j].id
  }

  ghost predicate BatchFails(l: Ledger, edges: seq<Report>, capturedAt: int) {
    BucketClash(Observed(l.counters, edges, capturedAt)) || CounterClash(Kept(l.counters, edges, capturedAt))
  }

  ghost function Batch(l: Ledger, edges: seq<Report>, capturedAt: int): Ledger {
    if BatchFails(l, edges, capturedAt) then l else Written(l, edges, capturedAt)
  }

  function Arrivals(edges: seq<Report>, capturedAt: int): (r: seq<Arrival>)
    ensures |r| == |edges| && forall i :: 0 <= i < |edges| ==> r[i] == Arrival(edges[i], capturedAt)
  {
    seq(|edges|, i requires 0 <= i < |edges| => Arrival(edges[i], capturedAt))
  }

  ghost predicate DistinctIds(edges: seq<Report>) {
    forall i, j :: 0 <= i < j < |edges| && edges[i].id != "" ==> edges[i].id != edges[j].id
  }

  lemma {:induction false} OtherReportsKeepCounter(l: Ledger, xs: seq<Arrival>, id: string)
    requires forall i :: 0 <= i < |xs| ==> xs[i].report.id != id
    ensures Lookup(Fold(l, xs).counters, id) == Lookup(l.counters, id)
  {
    if xs != [] {
      OtherReportsKeepCounter(l, xs[..|xs|-1], id);
    }
  }

  lemma {:induction false} KeptFromEdges(previous: map<string, Counter>, edges: seq<Report>, capturedAt: int)
    requires DistinctIds(edges)
    ensures forall r :: r in Kept(previous, edges, capturedAt) ==> Complete(r) && r in edges
    ensures forall o :: o in Observed(previous, edges, capturedAt) ==> o.id != "" && exists r :: r in edges && r.id == o.id
    ensures forall i, j :: 0 <= i < j < |Kept(previous, edges, capturedAt)| ==>
              Kept(previous, edges, capturedAt)[i].id != Kept(previous, edges, capturedAt)[j].id
    ensures forall i, j :: 0 <= i < j < |Observed(previous, edges, capturedAt)| ==>
              Observed(previous, edges, capturedAt)[i].id != Observed(previous, edges, capturedAt)[j].id
  {
    if edges != [] {
      var before, r := edges[..|edges|-1], edges[|edges|-1];
      KeptFromEdges(previous, before, capturedAt);
      assert forall x :: x in before && x.id != "" ==> x.id != r.id;
      assert r in edges && forall x :: x in before ==> x in edges;
    }
  }

  lemma BatchStep(l: Ledger, edges: seq<Report>, capturedAt: int)
    requires edges != []
    requires var r := edges[|edges|-1]; r.id != "" ==>
               Lookup(StoreAll(l.counters, Kept(l.counters, edges[..|edges|-1], capturedAt), capturedAt), r.id) == Lookup(l.counters, r.id)
    ensures Written(l, edges, capturedAt)
         == Apply(Written(l, edges[..|edges|-1], capturedAt), edges[|edges|-1], EventAt(edges[|edges|-1], capturedAt))
  {
    hide Store, Post, Delta, Stale, EventAt;
  }

  /** Everything a batch writes when no statement fails. */
  function Written(l: Ledger, edges: seq<Report>, capturedAt: int): Ledger {
    Ledger(StoreAll(l.counters, Kept(l.counters, edges, capturedAt), capturedAt),
           PostAll(l.buckets, Observed(l.counters, edges, capturedAt)))
  }

  lemma {:induction false} BatchPrefix(l: Ledger, edges: seq<Report>, capturedAt: int)
    requires DistinctIds(edges)
    ensures Fold(l, Arrivals(edges, capturedAt)) == Written(l, edges, capturedAt)
  {
    hide Apply, Kept, Observed, EventAt;
    if edges != [] {
      var before, r := edges[..|edges|-1], edges[|edges|-1];
      BatchPrefix(l, before, capturedAt);
      assert Arrivals(edges, capturedAt)[..|edges|-1] == Arrivals(before, capturedAt);
      if r.id != "" { OtherReportsKeepCounter(l, Arrivals(before, capturedAt), r.id); }
      BatchStep(l, edges, capturedAt);
    } else {
      NothingKept(l.counters, capturedAt);
    }
  }

  /** Reading every counter first, then writing all buckets and then all counters in chunks, amounts to
      taking the reports one at a time; the batch of distinct flows never collides with itself. */
  lemma BatchIsFold(l: Ledger, edges: seq<Report>, capturedAt: int)
    requires DistinctIds(edges)
    ensures !BatchFails(l, edges, capturedAt)
    ensures Batch(l, edges, capturedAt) == Fold(l, Arrivals(edges, capturedAt))
  {
    KeptFromEdges(l.counters, edges, capturedAt);
    BatchPrefix(l, edges, capturedAt);
  }

  // ---------- Conservation ----------

  datatype Side = Packets | Bytes | PacketsAToB | PacketsBToA | BytesAToB | BytesBToA

  function Amount(v: Volume, side: Side): nat {
    match side
    case Packets => v.packets
    case Bytes => v.bytes
    case PacketsAToB => v.packetsAToB
    case PacketsBToA => v.packetsBToA
    case BytesAToB => v.bytesAToB
    case BytesBToA => v.bytesBToA
  }

  function FlowAmounts(buckets: map<(string, int), Bucket>, id: string, side: Side): map<(string, int), nat> {
    map k | k in buckets && k.0 == id :: Amount(buckets[k].volume, side)
  }

  /** What all minutes of a flow add up to. */
  ghost function Posted(l: Ledger, id: string, side: Side): nat { Total(FlowAmounts(l.buckets, id, side)) }

  function Stored(l: Ledger, id: string, side: Side): nat {
    if id in l.counters then Amount(l.counters[id].volume, side) else 0
  }

  predicate Reaches(l: Ledger, x: Arrival, id: string) {
    x.report.id == id && Admitted(l.counters, x.report, EventAt(x.report, x.capturedAt))
  }

  /** The arrival is admitted and overwrites the counter; admitted before a counter at the epoch, it does not. */
  predicate Records(l: Ledger, x: Arrival, id: string) {
    && Reaches(l, x, id)
    && !(id in l.counters && l.counters[id].lastSeen.Some?
         && EventAt(x.report, x.capturedAt) < l.counters[id].lastSeen.value)
  }

  /** The counter value an arrival discards as a counter reset. */
  function ResetBy(l: Ledger, x: Arrival, id: string, side: Side): nat {
    if Records(l, x, id) && Amount(x.report.volume, side) < Stored(l, id, side) then Stored(l, id, side) else 0
  }

  /** The movement an arrival stores in the counter without posting it, because neither packets nor bytes moved. */
  function SilentIn(l: Ledger, x: Arrival, id: string, side: Side): nat {
    var d := Delta(Lookup(l.counters, id), x.report.volume);
    if Records(l, x, id) && !Moves(d) then Amount(d, side) else 0
  }

  /** The movement an arrival posts without storing it in the counter, because the counter is newer. */
  function UnstoredIn(l: Ledger, x: Arrival, id: string, side: Side): nat {
    var d := Delta(Lookup(l.counters, id), x.report.volume);
    if Reaches(l, x, id) && !Records(l, x, id) && Moves(d) then Amount(d, side) else 0
  }

  function Resets(l: Ledger, xs: seq<Arrival>, id: string, side: Side): nat {
    if xs == [] then 0
    else Resets(l, xs[..|xs|-1], id, side) + ResetBy(Fold(l, xs[..|xs|-1]), xs[|xs|-1], id, side)
  }

  function SilentAt(l: Ledger, xs: seq<Arrival>, i: nat, id: string, side: Side): nat
    requires i < |xs|
  { SilentIn(Fold(l, xs[..i]), xs[i], id, side) }

  function Silent(l: Ledger, xs: seq<Arrival>, id: string, side: Side): nat {
    if xs == [] then 0 else Silent(l, xs[..|xs|-1], id, side) + SilentAt(l, xs, |xs| - 1, id, side)
  }

  lemma {:induction false} NoneSilent(l: Ledger, xs: seq<Arrival>, id: string, side: Side)
    ensures Silent(l, xs, id, side) == 0 <==> forall i :: 0 <= i < |xs| ==> SilentAt(l, xs, i, id, side) == 0
  {
    if xs != [] {
      hide SilentIn, Fold;
      var before := xs[..|xs|-1];
      NoneSilent(l, before, id, side);
      forall i | 0 <= i < |before| ensures SilentAt(l, before, i, id, side) == SilentAt(l, xs, i, id, side) {
        assert before[..i] == xs[..i];
      }
      hide SilentAt;
    }
  }

  function UnstoredAt(l: Ledger, xs: seq<Arrival>, i: nat, id: string, side: Side): nat
    requires i < |xs|
  { UnstoredIn(Fold(l, xs[..i]), xs[i], id, side) }

  function Unstored(l: Ledger, xs: seq<Arrival>, id: string, side: Side): nat {
    if xs == [] then 0 else Unstored(l, xs[..|xs|-1], id, side) + UnstoredAt(l, xs, |xs| - 1, id, side)
  }

  lemma {:induction false} NoneUnstored(l: Ledger, xs: seq<Arrival>, id: string, side: Side)
    ensures Unstored(l, xs, id, side) == 0 <==> forall i :: 0 <= i < |xs| ==> UnstoredAt(l, xs, i, id, side) == 0
  {
    if xs != [] {
      hide UnstoredIn, Fold;
      var before := xs[..|xs|-1];
      NoneUnstored(l, before, id, side);
      forall i | 0 <= i < |before| ensures UnstoredAt(l, before, i, id, side) == UnstoredAt(l, xs, i, id, side) {
        assert before[..i] == xs[..i];
      }
      hide UnstoredAt;
    }
  }

  ghost predicate SinceEpoch(xs: seq<Arrival>) {
    forall i :: 0 <= i < |xs| ==> EventAt(xs[i].report, xs[i].capturedAt) >= 0
  }

  lemma OtherFlowsUntouched(buckets: map<(string, int), Bucket>, o: Observation, id: string, side: Side)
    requires o.id != id
    ensures FlowAmounts(Post(buckets, o), id, side) == FlowAmounts(buckets, id, side)
  {
    hide Amount, Plus, Minute;
  }

  lemma OwnMinuteGrows(buckets: map<(string, int), Bucket>, o: Observation, side: Side)
    ensures var k, before := RowOf(o), FlowAmounts(buckets, o.id, side);
            k in before <==> k in buckets
    ensures var k, before := RowOf(o), FlowAmounts(buckets, o.id, side);
            FlowAmounts(Post(buckets, o), o.id, side)
            == before[k := Amount(o.volume, side) + if k in before then before[k] else 0]
  {
    hide Minute;
  }

  lemma PostAddsOnce(buckets: map<(string, int), Bucket>, o: Observation, id: string, side: Side)
    ensures Total(FlowAmounts(Post(buckets, o), id, side))
         == Total(FlowAmounts(buckets, id, side)) + if o.id == id then Amount(o.volume, side) else 0
  {
    hide Post, FlowAmounts, Amount, Total;
    var k, before := RowOf(o), FlowAmounts(buckets, id, side);
    if o.id != id {
      OtherFlowsUntouched(buckets, o, id, side);
    } else {
      OwnMinuteGrows(buckets, o, side);
      if k in before {
        TotalUpdate(before, k, Amount(o.volume, side) + before[k]);
      } else {
        TotalInsert(before, k, Amount(o.volume, side));
      }
    }
  }

  lemma DeltaOfSide(l: Ledger, id: string, v: Volume, side: Side)
    ensures Amount(Delta(Lookup(l.counters, id), v), side) + Stored(l, id, side)
         == Amount(v, side) + if Amount(v, side) < Stored(l, id, side) then Stored(l, id, side) else 0
  {
  }

  /** One arrival moves posted and stored amounts by the same quantity, up to a reset and to what only one of
      the two tables takes. */
  lemma ArrivalConserves(l: Ledger, x: Arrival, id: string, side: Side)
    ensures var m := Apply(l, x.report, EventAt(x.report, x.capturedAt));
            (Posted(m, id, side) + SilentIn(l, x, id, side) + Stored(l, id, side)
             == Posted(l, id, side) + Stored(m, id, side) + ResetBy(l, x, id, side) + UnstoredIn(l, x, id, side))
  {
    hide Post, Total, EventAt;
    var r, at := x.report, EventAt(x.report, x.capturedAt);
    if Admitted(l.counters, r, at) {
      var d := Delta(Lookup(l.counters, r.id), r.volume);
      if Moves(d) { PostAddsOnce(l.buckets, Observation(r.id, at, d), id, side); }
      if r.id == id { DeltaOfSide(l, id, r.volume, side); }
      hide Delta, Stale;
    }
  }

  lemma {:induction false} LedgerBalances(l: Ledger, xs: seq<Arrival>, id: string, side: Side)
    ensures Posted(Fold(l, xs), id, side) + Silent(l, xs, id, side) + Stored(l, id, side)
         == Posted(l, id, side) + Stored(Fold(l, xs), id, side) + Resets(l, xs, id, side) + Unstored(l, xs, id, side)
  {
    hide Apply, ResetBy, SilentIn, UnstoredIn, Stored, Posted;
    if xs != [] {
      LedgerBalances(l, xs[..|xs|-1], id, side);
      ArrivalConserves(Fold(l, xs[..|xs|-1]), xs[|xs|-1], id, side);
    }
  }

  /** Only a report stamped before 1970, meeting a counter stamped exactly at the epoch, is posted unstored. */
  lemma UnstoredIsOlderThanEpoch(l: Ledger, x: Arrival, id: string, side: Side)
    requires UnstoredIn(l, x, id, side) > 0
    ensures id in l.counters && l.counters[id].lastSeen == Some(0) && EventAt(x.report, x.capturedAt) < 0
  {
    hide Delta, EventAt;
  }

  lemma NothingUnstoredSinceEpoch(l: Ledger, xs: seq<Arrival>, id: string, side: Side)
    requires SinceEpoch(xs)
    ensures Unstored(l, xs, id, side) == 0
  {
    hide UnstoredIn, EventAt, Unstored;
    NoneUnstored(l, xs, id, side);
    forall i | 0 <= i < |xs| ensures UnstoredAt(l, xs, i, id, side) == 0 {
      if UnstoredIn(Fold(l, xs[..i]), xs[i], id, side) > 0 { UnstoredIsOlderThanEpoch(Fold(l, xs[..i]), xs[i], id, side); }
    }
  }

  const NO_LEDGER := Ledger(map[], map[])

  lemma {:induction false} PacketsAndBytesAreNeverSilent(l: Ledger, xs: seq<Arrival>, id: string, side: Side)
    requires side == Packets || side == Bytes
    ensures Silent(l, xs, id, side) == 0
  {
    hide Delta, Records, Apply;
    if xs != [] { PacketsAndBytesAreNeverSilent(l, xs[..|xs|-1], id, side); }
  }

  /** Whatever arrives, late, twice or out of order, at whatever time: a flow's minutes add up to its last accepted
      counter, the counter just before every detected reset and what was posted past a counter at the epoch. The
      last term is missing exactly when no arrival did that. */
  lemma PacketsAndBytesConserved(xs: seq<Arrival>, id: string, side: Side)
    requires side == Packets || side == Bytes
    ensures var l, resets := Fold(NO_LEDGER, xs), Resets(NO_LEDGER, xs, id, side);
            && Posted(l, id, side) == Stored(l, id, side) + resets + Unstored(NO_LEDGER, xs, id, side)
            && (Posted(l, id, side) == Stored(l, id, side) + resets
                <==> forall i :: 0 <= i < |xs| ==> UnstoredAt(NO_LEDGER, xs, i, id, side) == 0)
            && (SinceEpoch(xs) ==> Posted(l, id, side) == Stored(l, id, side) + resets)
  {
    hide UnstoredAt, Unstored, Silent, Resets, Fold;
    NoneUnstored(NO_LEDGER, xs, id, side);
    LedgerBalances(NO_LEDGER, xs, id, side);
    PacketsAndBytesAreNeverSilent(NO_LEDGER, xs, id, side);
    if SinceEpoch(xs) { NothingUnstoredSinceEpoch(NO_LEDGER, xs, id, side); }
    assert FlowAmounts(NO_LEDGER.buckets, id, side) == map[];
  }

  /** The directional columns balance exactly when as much was stored unposted as was posted unstored; with
      every report at or after 1970, exactly when no accepted report moved them alone. */
  lemma DirectionsConservedExactly(xs: seq<Arrival>, id: string, side: Side)
    ensures var l, resets := Fold(NO_LEDGER, xs), Resets(NO_LEDGER, xs, id, side);
            && (Posted(l, id, side) == Stored(l, id, side) + resets
                <==> Silent(NO_LEDGER, xs, id, side) == Unstored(NO_LEDGER, xs, id, side))
            && (SinceEpoch(xs) ==>
                  (Posted(l, id, side) == Stored(l, id, side) + resets
                   <==> forall i :: 0 <= i < |xs| ==> SilentAt(NO_LEDGER, xs, i, id, side) == 0))
  {
    hide SilentAt, UnstoredAt, Silent, Unstored, Resets, Fold;
    NoneSilent(NO_LEDGER, xs, id, side);
    LedgerBalances(NO_LEDGER, xs, id, side);
    if SinceEpoch(xs) { NothingUnstoredSinceEpoch(NO_LEDGER, xs, id, side); }
    assert FlowAmounts(NO_LEDGER.buckets, id, side) == map[];
  }

  /** A report before 1970 that meets a counter at the epoch is posted, and the counter stays: three packets in
      the counter, eight in the minutes, and no reset. */
  lemma UnstoredMovementBreaksBalance()
    ensures var a := Arrival(Report("f", "a", "b", Some(0), Volume(3, 0, 0, 0, 0, 0)), 0);
            var b := Arrival(Report("f", "a", "b", Some(-1), Volume(8, 0, 0, 0, 0, 0)), 0);
            var l := Fold(NO_LEDGER, [a, b]);
            Stored(l, "f", Packets) == 3 && Posted(l, "f", Packets) == 8 && Resets(NO_LEDGER, [a, b], "f", Packets) == 0
  {
    hide Post, Total, Posted;
    var a := Arrival(Report("f", "a", "b", Some(0), Volume(3, 0, 0, 0, 0, 0)), 0);
    var b := Arrival(Report("f", "a", "b", Some(-1), Volume(8, 0, 0, 0, 0, 0)), 0);
    assert [a, b][..1] == [a] && [a][..0] == [] && Fold(NO_LEDGER, []) == NO_LEDGER;
    assert ResetBy(NO_LEDGER, a, "f", Packets) == 0 && UnstoredIn(NO_LEDGER, a, "f", Packets) == 0;
    var l := Fold(NO_LEDGER, [a]);
    assert l.counters["f"] == Counter(a.report.volume, Some(0));
    assert Fold(NO_LEDGER, [a, b]) == Apply(l, b.report, -1);
    assert Resets(NO_LEDGER, [], "f", Packets) == 0 && Unstored(NO_LEDGER, [], "f", Packets) == 0;
    assert Resets(NO_LEDGER, [a], "f", Packets) == 0 && Unstored(NO_LEDGER, [a], "f", Packets) == 0;
    assert UnstoredIn(l, b, "f", Packets) == 5;
    PacketsAndBytesConserved([a, b], "f", Packets);
  }

  /** A first report that counts a direction but no packet or byte is stored and never posted. */
  lemma DirectionAloneIsLost()
    ensures var x := Arrival(Report("f", "a", "b", Some(1), Volume(0, 0, 5, 0, 0, 0)), 1);
            var l := Fold(NO_LEDGER, [x]);
            Stored(l, "f", PacketsAToB) == 5 && Posted(l, "f", PacketsAToB) == 0
  {
    var x := Arrival(Report("f", "a", "b", Some(1), Volume(0, 0, 5, 0, 0, 0)), 1);
    assert [x][..0] == [];
    assert FlowAmounts(NO_LEDGER.buckets, "f", PacketsAToB) == map[];
  }

  // ---------- Which reports are taken ----------

  /** A report is taken exactly if it names its flow and both ends and is not overtaken: the flow has no counter, or one
      without a time or from the epoch, or an older one, or one of the same time that exceeds it in no column. */
  lemma AcceptedExactly(l: Ledger, x: Arrival, id: string)
    ensures Reaches(l, x, id) <==>
              (&& x.report.id == id && id != "" && "" !in {x.report.srcIP, x.report.dstIP}
               && (id in l.counters && l.counters[id].lastSeen.Some? && l.counters[id].lastSeen.value != 0 ==>
                     || l.counters[id].lastSeen.value < TimeOf(x)
                     || (l.counters[id].lastSeen.value == TimeOf(x)
                         && forall side :: Stored(l, id, side) <= Amount(x.report.volume, side))))
  {
    if id in l.counters {
      var stored, v := l.counters[id].volume, x.report.volume;
      LowerInSome(v, stored);
      hide AnyLower, Amount;
      forall side ensures Stored(l, id, side) == Amount(stored, side) {}
      if AnyLower(v, stored) {
        var side :| Amount(v, side) < Amount(stored, side);
        assert Stored(l, id, side) > Amount(v, side);
      }
    }
  }

  lemma LowerInSome(a: Volume, b: Volume)
    ensures AnyLower(a, b) <==> exists side :: Amount(a, side) < Amount(b, side)
  {
    if AnyLower(a, b) {
      var side := if a.packets < b.packets then Packets else if a.bytes < b.bytes then Bytes
                  else if a.packetsAToB < b.packetsAToB then PacketsAToB else if a.packetsBToA < b.packetsBToA then PacketsBToA
                  else if a.bytesAToB < b.bytesAToB then BytesAToB else BytesBToA;
      assert Amount(a, side) < Amount(b, side);
    }
  }

  // ---------- Which minute receives what ----------

  predicate Within(at: int, minute: int) { minute <= at < minute + MINUTE }

  /** When an arrival happened: when its report says, else when its batch was captured. */
  function TimeOf(x: Arrival): int {
    match x.report.lastSeen
    case Some(t) => t
    case None => x.capturedAt
  }

  /** The arrival moves packets or bytes of the flow at a time within the minute. */
  predicate MovesIn(l: Ledger, x: Arrival, id: string, minute: int) {
    && Reaches(l, x, id) && Within(TimeOf(x), minute)
    && Moves(Delta(Lookup(l.counters, id), x.report.volume))
  }

  predicate MovesAt(l: Ledger, xs: seq<Arrival>, i: nat, id: string, minute: int)
    requires i < |xs|
  { MovesIn(Fold(l, xs[..i]), xs[i], id, minute) }

  /** What the accepted arrivals of a flow moved within a minute. */
  function Moved(l: Ledger, xs: seq<Arrival>, id: string, minute: int, side: Side): nat {
    if xs == [] then 0
    else
      var before, x := Fold(l, xs[..|xs|-1]), xs[|xs|-1];
      Moved(l, xs[..|xs|-1], id, minute, side)
      + if MovesIn(before, x, id, minute) then Amount(Delta(Lookup(before.counters, id), x.report.volume), side) else 0
  }

  /** The bucket of a minute holds what was moved within it, side by side, up to the last time of a movement. */
  ghost predicate Holds(cell: Option<Bucket>, xs: seq<Arrival>, id: string, minute: int) {
    && (cell.Some? <==> exists i :: 0 <= i < |xs| && MovesAt(NO_LEDGER, xs, i, id, minute))
    && (cell.Some? ==>
          && (forall side :: Amount(cell.value.volume, side) == Moved(NO_LEDGER, xs, id, minute, side))
          && (exists i :: 0 <= i < |xs| && MovesAt(NO_LEDGER, xs, i, id, minute)
                       && cell.value.end == TimeOf(xs[i]))
          && (forall i :: 0 <= i < |xs| && MovesAt(NO_LEDGER, xs, i, id, minute) ==>
                TimeOf(xs[i]) <= cell.value.end))
    && (cell.None? ==> forall side :: Moved(NO_LEDGER, xs, id, minute, side) == 0)
  }

  lemma WholeMinute(at: int, minute: int)
    ensures Minute(at) % MINUTE == 0 && Within(at, Minute(at))
    ensures minute % MINUTE == 0 && Within(at, minute) ==> minute == Minute(at)
  {
  }

  function Grown(cell: Option<Bucket>, d: Volume, at: int): Bucket {
    if cell.None? then Bucket(d, at) else Bucket(Plus(cell.value.volume, d), if at > cell.value.end then at else cell.value.end)
  }

  lemma CellNext(l: Ledger, x: Arrival, id: string, minute: int)
    requires minute % MINUTE == 0
    ensures var m := Apply(l, x.report, EventAt(x.report, x.capturedAt));
            Lookup(m.buckets, (id, minute)) ==
              if MovesIn(l, x, id, minute)
              then Some(Grown(Lookup(l.buckets, (id, minute)), Delta(Lookup(l.counters, id), x.report.volume),
                              TimeOf(x)))
              else Lookup(l.buckets, (id, minute))
  {
    var at := EventAt(x.report, x.capturedAt);
    WholeMinute(at, minute);
    hide Minute, Within, Delta, Stale, Store;
  }

  lemma MovesNext(xs: seq<Arrival>, x: Arrival, id: string, minute: int)
    ensures forall i :: 0 <= i < |xs| ==> MovesAt(NO_LEDGER, xs + [x], i, id, minute) == MovesAt(NO_LEDGER, xs, i, id, minute)
    ensures MovesAt(NO_LEDGER, xs + [x], |xs|, id, minute) == MovesIn(Fold(NO_LEDGER, xs), x, id, minute)
  {
    hide MovesIn, Fold;
    assert (xs + [x])[..|xs|] == xs;
    forall i | 0 <= i < |xs| ensures (xs + [x])[..i] == xs[..i] && (xs + [x])[i] == xs[i] {}
  }

  lemma MovedNext(xs: seq<Arrival>, x: Arrival, id: string, minute: int, side: Side)
    ensures var before := Fold(NO_LEDGER, xs);
            Moved(NO_LEDGER, xs + [x], id, minute, side) == Moved(NO_LEDGER, xs, id, minute, side)
              + if MovesIn(before, x, id, minute) then Amount(Delta(Lookup(before.counters, id), x.report.volume), side) else 0
  {
    hide MovesIn, Fold, Delta;
    assert (xs + [x])[..|xs|] == xs;
  }

  lemma HoldsNext(cell: Option<Bucket>, xs: seq<Arrival>, x: Arrival, id: string, minute: int)
    requires Holds(cell, xs, id, minute)
    ensures var before := Fold(NO_LEDGER, xs);
            Holds(if MovesIn(before, x, id, minute)
                  then Some(Grown(cell, Delta(Lookup(before.counters, id), x.report.volume), TimeOf(x)))
                  else cell, xs + [x], id, minute)
  {
    hide MovesIn, MovesAt, Fold, Delta, Moved, TimeOf;
    var all := xs + [x];
    MovesNext(xs, x, id, minute);
    forall side ensures Moved(NO_LEDGER, all, id, minute, side) == Moved(NO_LEDGER, xs, id, minute, side)
      + if MovesIn(Fold(NO_LEDGER, xs), x, id, minute)
        then Amount(Delta(Lookup(Fold(NO_LEDGER, xs).counters, id), x.report.volume), side) else 0
    {
      MovedNext(xs, x, id, minute, side);
    }
    assert all[|xs|] == x && forall i :: 0 <= i < |xs| ==> all[i] == xs[i];
    if cell.Some? {
      var j :| 0 <= j < |xs| && MovesAt(NO_LEDGER, xs, j, id, minute) && cell.value.end == TimeOf(xs[j]);
      assert MovesAt(NO_LEDGER, all, j, id, minute) && all[j] == xs[j];
    }
  }

  /** After any reports, a whole minute of a flow holds exactly what the accepted reports of the flow with times in that
      minute moved, in every column, and ends at the latest of those times; a minute in which nothing moved has no
      bucket. */
  lemma {:induction false} MinuteHoldsItsMovement(xs: seq<Arrival>, id: string, minute: int)
    requires minute % MINUTE == 0
    ensures Holds(Lookup(Fold(NO_LEDGER, xs).buckets, (id, minute)), xs, id, minute)
  {
    if xs != [] {
      var before, x := xs[..|xs|-1], xs[|xs|-1];
      MinuteHoldsItsMovement(before, id, minute);
      hide Apply, Holds, MovesIn, Delta, TimeOf, Grown;
      CellNext(Fold(NO_LEDGER, before), x, id, minute);
      HoldsNext(Lookup(Fold(NO_LEDGER, before).buckets, (id, minute)), before, x, id, minute);
      assert before + [x] == xs;
    }
  }

  /** There are no other buckets: every one starts on a whole minute and ends within it. */
  lemma {:induction false} BucketsAreMinutes(xs: seq<Arrival>, k: (string, int))
    requires k in Fold(NO_LEDGER, xs).buckets
    ensures k.1 % MINUTE == 0 && Within(Fold(NO_LEDGER, xs).buckets[k].end, k.1)
  {
    var before, x := xs[..|xs|-1], xs[|xs|-1];
    var l, at := Fold(NO_LEDGER, before), EventAt(x.report, x.capturedAt);
    if k in l.buckets { BucketsAreMinutes(before, k); }
    WholeMinute(at, k.1);
    hide Minute, Delta, Stale, Store, EventAt, Plus;
  }

  // ---------- Replays ----------

  /** The counter is newer than the report, or as new and, away from the epoch, equal or ahead somewhere. */
  predicate Covers(c: Counter, v: Volume, at: int) {
    && c.lastSeen.Some?
    && (c.lastSeen.value > at || (c.lastSeen.value == at && (at == 0 || c.volume == v || AnyLower(v, c.volume))))
  }

  lemma ApplyCovers(l: Ledger, r: Report, at: int)
    requires Complete(r)
    ensures var m := Apply(l, r, at); r.id in m.counters && Covers(m.counters[r.id], r.volume, at)
  {
    hide Post, Delta;
  }

  lemma ApplyKeepsCovering(l: Ledger, r: Report, at: int, id: string, v: Volume, when: int)
    requires id in l.counters && Covers(l.counters[id], v, when)
    ensures var m := Apply(l, r, at); id in m.counters && Covers(m.counters[id], v, when)
  {
    hide Post, Delta;
  }

  lemma {:induction false} RunCovers(l: Ledger, xs: seq<Arrival>, i: nat)
    requires i < |xs| && Complete(xs[i].report)
    ensures xs[i].report.id in Fold(l, xs).counters
    ensures Covers(Fold(l, xs).counters[xs[i].report.id], xs[i].report.volume, EventAt(xs[i].report, xs[i].capturedAt))
  {
    hide Apply, Covers;
    var before, x := xs[..|xs|-1], xs[|xs|-1];
    var r, at := x.report, EventAt(x.report, x.capturedAt);
    if i == |xs| - 1 {
      ApplyCovers(Fold(l, before), r, at);
    } else {
      assert before[i] == xs[i];
      RunCovers(l, before, i);
      ApplyKeepsCovering(Fold(l, before), r, at, xs[i].report.id, xs[i].report.volume, EventAt(xs[i].report, xs[i].capturedAt));
    }
  }

  lemma PostChanges(buckets: map<(string, int), Bucket>, o: Observation)
    requires Moves(o.volume)
    ensures Post(buckets, o) != buckets
  {
    var k := RowOf(o);
    if k in buckets { assert Post(buckets, o)[k].volume != buckets[k].volume; }
    assert k in Post(buckets, o);
  }

  /** A repeated report still counts: it meets a counter at the epoch, before which it moves the minutes, and at
      which it overwrites a different counter. */
  predicate CountsAgain(c: Counter, v: Volume, at: int) {
    c.lastSeen == Some(0) && (if at < 0 then Moves(Delta(Some(c), v)) else c.volume != v)
  }

  lemma CoveredChangesNothingExactly(l: Ledger, r: Report, at: int)
    requires Complete(r) && r.id in l.counters && Covers(l.counters[r.id], r.volume, at)
    ensures Apply(l, r, at) == l <==> !CountsAgain(l.counters[r.id], r.volume, at)
  {
    hide Post;
    var c := l.counters[r.id];
    var d := Delta(Some(c), r.volume);
    if Admitted(l.counters, r, at) {
      if c.lastSeen == Some(0) && at < 0 {
        assert Store(l.counters, r, at) == l.counters;
        if Moves(d) { PostChanges(l.buckets, Observation(r.id, at, d)); }
      } else if c.volume == r.volume {
        assert c == Counter(r.volume, Some(at)) && !Moves(d);
        assert Store(l.counters, r, at) == l.counters;
      } else {
        assert Store(l.counters, r, at)[r.id].volume == r.volume;
      }
    }
  }

  /** Sending any report of a run again, however late and whatever came between, changes neither table exactly
      unless it meets a counter stamped at the epoch that it still moves. */
  lemma ReplaysChangeNothingExactly(l: Ledger, xs: seq<Arrival>, i: nat)
    requires i < |xs|
    ensures var r, at, m := xs[i].report, EventAt(xs[i].report, xs[i].capturedAt), Fold(l, xs);
            && (Complete(r) ==> r.id in m.counters)
            && (Apply(m, r, at) == m <==> !(Complete(r) && CountsAgain(m.counters[r.id], r.volume, at)))
            && (at > 0 ==> Apply(m, r, at) == m)
  {
    hide Apply, Covers, CountsAgain, EventAt;
    var r, at := xs[i].report, EventAt(xs[i].report, xs[i].capturedAt);
    if Complete(r) {
      RunCovers(l, xs, i);
      CoveredChangesNothingExactly(Fold(l, xs), r, at);
      if at > 0 { NewerThanEpoch(Fold(l, xs).counters[r.id], r.volume, at); }
    } else {
      IncompleteChangesNothing(Fold(l, xs), r, at);
    }
  }

  lemma NewerThanEpoch(c: Counter, v: Volume, at: int)
    requires Covers(c, v, at) && at > 0
    ensures !CountsAgain(c, v, at)
  {
  }

  lemma IncompleteChangesNothing(l: Ledger, r: Report, at: int)
    requires !Complete(r)
    ensures Apply(l, r, at) == l
  {
  }

  /** What such a repeat costs: of a new flow whose reports are stamped at the epoch, an overtaken report sent
      again is taken for a counter reset, and all its packets are posted a second time. */
  lemma EpochReplayIsCounted(l: Ledger, a: Report, b: Report)
    requires Complete(a) && Complete(b) && a.id == b.id && a.id !in l.counters && a.volume.packets < b.volume.packets
    ensures var m := Apply(Apply(l, a, 0), b, 0); var again := Apply(m, a, 0);
            && Stored(m, a.id, Packets) == b.volume.packets && Stored(again, a.id, Packets) == a.volume.packets
            && Posted(again, a.id, Packets) == Posted(m, a.id, Packets) + a.volume.packets
  {
    hide Post, Posted, Total;
    var m := Apply(Apply(l, a, 0), b, 0);
    assert Apply(l, a, 0).counters[a.id] == Counter(a.volume, Some(0));
    assert m.counters[a.id] == Counter(b.volume, Some(0));
    ArrivalConserves(m, Arrival(a.(lastSeen := Some(0)), 0), a.id, Packets);
    assert Apply(m, a.(lastSeen := Some(0)), 0) == Apply(m, a, 0);
    hide Delta;
  }

  // ---------- The tables, updated in place ----------

  function Selected(edges: seq<Report>): seq<Report> {
    if edges == [] then []
    else Selected(edges[..|edges|-1]) + if Complete(edges[|edges|-1]) then [edges[|edges|-1]] else []
  }

  /** Drops incomplete reports and lists the flow ids that remain, each once. */
  method SelectComplete(edges: seq<Report>) returns (valid: seq<Report>, ids: seq<string>)
    ensures valid == Selected(edges)
    ensures forall r :: r in valid ==> r.id in ids
  {
    valid, ids := [], [];
    var seen: set<string> := {};
    for i := 0 to |edges|
      invariant valid == Selected(edges[..i])
      invariant forall r :: r in valid ==> r.id in ids
      invariant forall id :: id in seen <==> id in ids
    {
      assert edges[..i+1][..i] == edges[..i];
      if Complete(edges[i]) {
        valid := valid + [edges[i]];
        if edges[i].id !in seen {
          seen := seen + {edges[i].id};
          ids := ids + [edges[i].id];
        }
      }
    }
    assert edges[..|edges|] == edges;
  }

  lemma KeptNext(previous: map<string, Counter>, before: seq<Report>, r: Report, capturedAt: int)
    ensures Kept(previous, before + [r], capturedAt)
         == Kept(previous, before, capturedAt) + if Admitted(previous, r, EventAt(r, capturedAt)) then [r] else []
  {
    hide Admitted, EventAt;
    assert (before + [r])[..|before|] == before;
  }

  lemma ObservedNext(previous: map<string, Counter>, before: seq<Report>, r: Report, capturedAt: int)
    ensures var at, d := EventAt(r, capturedAt), Delta(Lookup(previous, r.id), r.volume);
            (Observed(previous, before + [r], capturedAt)
             == Observed(previous, before, capturedAt)
              + if Admitted(previous, r, at) && Moves(d) then [Observation(r.id, at, d)] else [])
  {
    hide Admitted, EventAt, Delta, Lookup, Moves;
    assert (before + [r])[..|before|] == before;
  }

  /** Reading only the counters of the complete reports decides the batch as the whole table would. */
  lemma {:induction false} SelectionIsEnough(counters: map<string, Counter>, previous: map<string, Counter>,
                                             edges: seq<Report>, capturedAt: int)
    requires forall r :: r in Selected(edges) ==> Lookup(previous, r.id) == Lookup(counters, r.id)
    ensures Kept(previous, Selected(edges), capturedAt) == Kept(counters, edges, capturedAt)
    ensures Observed(previous, Selected(edges), capturedAt) == Observed(counters, edges, capturedAt)
  {
    hide Kept, Observed, Stale, Delta, EventAt;
    if edges != [] {
      var before, r := edges[..|edges|-1], edges[|edges|-1];
      assert edges == before + [r];
      assert forall x :: x in Selected(before) ==> x in Selected(edges);
      SelectionIsEnough(counters, previous, before, capturedAt);
      KeptNext(counters, before, r, capturedAt);
      ObservedNext(counters, before, r, capturedAt);
      if Complete(r) {
        assert r in Selected(edges) && Lookup(previous, r.id) == Lookup(counters, r.id);
        KeptNext(previous, Selected(before), r, capturedAt);
        ObservedNext(previous, Selected(before), r, capturedAt);
      } else {
        assert Selected(edges) == Selected(before);
      }
    } else {
      assert Selected(edges) == [];
      NothingKept(previous, capturedAt);
      NothingKept(counters, capturedAt);
    }
  }

  lemma NothingKept(previous: map<string, Counter>, capturedAt: int)
    ensures Kept(previous, [], capturedAt) == [] && Observed(previous, [], capturedAt) == []
  {
  }

  /** Positions of one chunk, and only they, share its number. */
  lemma ChunkIndices(start: nat, end: nat)
    requires start % WRITE_BATCH == 0 && start < end <= start + WRITE_BATCH
    ensures forall i :: start <= i < end ==> i / WRITE_BATCH == start / WRITE_BATCH
    ensures forall i :: 0 <= i < start ==> i / WRITE_BATCH < start / WRITE_BATCH
  {
  }

  class FlowTables {
    var counters: map<string, Counter>
    var buckets: map<(string, int), Bucket>

    ghost function View(): Ledger reads this { Ledger(counters, buckets) }

    constructor ()
      ensures View() == NO_LEDGER
    {
      counters, buckets := map[], map[];
    }

    /** Reads the stored counters of the flows, a chunk of ids at a time. */
    method LoadCounters(ids: seq<string>) returns (previous: map<string, Counter>)
      ensures previous == map id | id in ids && id in counters :: counters[id]
    {
      previous := map[];
      var start := 0;
      while start < |ids|
        invariant start <= |ids|
        invariant previous == map id | id in ids[..start] && id in counters :: counters[id]
      {
        var end := if start + LOOKUP_BATCH > |ids| then |ids| else start + LOOKUP_BATCH;
        var chunk := ids[start..end];
        assert ids[..end] == ids[..start] + chunk;
        previous := previous + map id | id in chunk && id in counters :: counters[id];
        start := end;
      }
      assert ids[..|ids|] == ids;
    }

    /** One INSERT of a chunk of rows; a row that meets an earlier row of the statement fails it. */
    method InsertBuckets(all: seq<Observation>, start: nat, end: nat, ghost base: map<(string, int), Bucket>)
      returns (ok: bool)
      requires start <= end <= |all| && buckets == PostAll(base, all[..start])
      modifies this`buckets
      ensures ok <==> forall i, j :: start <= i < j < end ==> RowOf(all[i]) != RowOf(all[j])
      ensures ok ==> buckets == PostAll(base, all[..end])
    {
      hide Post, RowOf;
      var touched: set<(string, int)> := {};
      var i := start;
      while i < end
        invariant start <= i <= end
        invariant touched == set j | start <= j < i :: RowOf(all[j])
        invariant forall j, k :: start <= j < k < i ==> RowOf(all[j]) != RowOf(all[k])
        invariant buckets == PostAll(base, all[..i])
      {
        if RowOf(all[i]) in touched { return false; }
        touched := touched + {RowOf(all[i])};
        assert all[..i+1][..i] == all[..i];
        buckets := Post(buckets, all[i]);
        i := i + 1;
      }
      return true;
    }

    method UpsertCounters(all: seq<Report>, start: nat, end: nat, capturedAt: int, ghost base: map<string, Counter>)
      returns (ok: bool)
      requires start <= end <= |all| && counters == StoreAll(base, all[..start], capturedAt)
      modifies this`counters
      ensures ok <==> forall i, j :: start <= i < j < end ==> all[i].id != all[j].id
      ensures ok ==> counters == StoreAll(base, all[..end], capturedAt)
    {
      hide Store;
      var touched: set<string> := {};
      var i := start;
      while i < end
        invariant start <= i <= end
        invariant touched == set j | start <= j < i :: all[j].id
        invariant forall j, k :: start <= j < k < i ==> all[j].id != all[k].id
        invariant counters == StoreAll(base, all[..i], capturedAt)
      {
        if all[i].id in touched { return false; }
        touched := touched + {all[i].id};
        assert all[..i+1][..i] == all[..i];
        counters := Store(counters, all[i], EventAt(all[i], capturedAt));
        i := i + 1;
      }
      return true;
    }

    method WriteBuckets(all: seq<Observation>) returns (ok: bool)
      modifies this`buckets
      ensures ok <==> !BucketClash(all)
      ensures ok ==> buckets == PostAll(old(buckets), all)
    {
      hide Post, RowOf;
      ghost var base := buckets;
      var start := 0;
      assert all[..0] == [];
      while start < |all|
        invariant start <= |all| && (start % WRITE_BATCH == 0 || start == |all|)
        invariant buckets == PostAll(base, all[..start])
        invariant forall i, j :: 0 <= i < j < start && i / WRITE_BATCH == j / WRITE_BATCH ==> RowOf(all[i]) != RowOf(all[j])
      {
        var end := if start + WRITE_BATCH > |all| then |all| else start + WRITE_BATCH;
        ok := InsertBuckets(all, start, end, base);
        ChunkIndices(start, end);
        if !ok { return; }
        start := end;
      }
      assert all[..|all|] == all;
      return true;
    }

    method WriteCounters(all: seq<Report>, capturedAt: int) returns (ok: bool)
      modifies this`counters
      ensures ok <==> !CounterClash(all)
      ensures ok ==> counters == StoreAll(old(counters), all, capturedAt)
    {
      hide Store;
      ghost var base := counters;
      var start := 0;
      assert all[..0] == [];
      while start < |all|
        invariant start <= |all| && (start % WRITE_BATCH == 0 || start == |all|)
        invariant counters == StoreAll(base, all[..start], capturedAt)
        invariant forall i, j :: 0 <= i < j < start && i / WRITE_BATCH == j / WRITE_BATCH ==> all[i].id != all[j].id
      {
        var end := if start + WRITE_BATCH > |all| then |all| else start + WRITE_BATCH;
        ok := UpsertCounters(all, start, end, capturedAt, base);
        ChunkIndices(start, end);
        if !ok { return; }
        start := end;
      }
      assert all[..|all|] == all;
      return true;
    }

    /** The reports of one batch; a failed statement rolls the transaction back. */
    method Persist(capturedAt: int, edges: seq<Report>) returns (ok: bool)
      modifies this
      ensures ok <==> !BatchFails(old(View()), edges, capturedAt)
      ensures View() == Batch(old(View()), edges, capturedAt)
    {
      hide Admitted, Delta, Store, Post, EventAt, BucketClash, CounterClash;
      ghost var start := View();
      var valid, ids := SelectComplete(edges);
      var previous := LoadCounters(ids);
      var observations: seq<Observation>, accepted: seq<Report> := [], [];
      assert edges[..0] == [];
      for i := 0 to |valid|
        invariant observations == Observed(previous, valid[..i], capturedAt) && accepted == Kept(previous, valid[..i], capturedAt)
      {
        assert valid[..i+1][..i] == valid[..i];
        var r := valid[i];
        var at := EventAt(r, capturedAt);
        if Admitted(previous, r, at) {
          accepted := accepted + [r];
          var d := Delta(Lookup(previous, r.id), r.volume);
          if Moves(d) { observations := observations + [Observation(r.id, at, d)]; }
        }
      }
      assert valid[..|valid|] == valid;
      SelectionIsEnough(counters, previous, edges, capturedAt);
      var flowsBefore, bucketsBefore := counters, buckets;
      ok := WriteBuckets(observations);
      if ok { ok := WriteCounters(accepted, capturedAt); }
      if !ok { counters, buckets := flowsBefore, bucketsBefore; }
    }
  }
}
