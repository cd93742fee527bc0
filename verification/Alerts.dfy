/**
  Central's alert history for one sensor: every report is merged into a durable row, and occurrences are
  counted per alert type and minute. Both SQL tables are maps; one report is one statement.
*/
module Alerts {
  import opened Options
  import opened MapSums

  datatype Status = New | Confirmed | Approved | Other(text: string)

  /** One reported alert, its asset identity already resolved; zero times and an empty status are `None`. */
  datatype Report = Report(
    id: string, kind: string, severity: string, message: string, ip: string, identity: string,
    firstSeen: Option<int>, lastSeen: Option<int>, count: nat, status: Option<Status>, evidence: string)

  datatype Row = Row(
    kind: string, severity: string, message: string, ip: string, identity: string,
    status: Status, count: nat, firstSeen: int, lastSeen: int, evidence: string)

  datatype Cell = Cell(occurrences: nat, newFindings: nat)

  type Slot = (string, int)

  datatype History = History(rows: map<string, Row>, buckets: map<Slot, Cell>)

  const MINUTE: int := 60_000_000_000
  const NO_HISTORY := History(map[], map[])

  /** Reports without an id, or without a time that could order them, are skipped. */
  predicate Usable(r: Report) { r.id != "" && r.lastSeen.Some? }

  /** The row a report would insert, with the defaults for what it leaves out. */
  function Fresh(r: Report): Row
    requires r.lastSeen.Some?
  {
    Row(r.kind, r.severity, r.message, r.ip, r.identity,
        if r.status.Some? then r.status.value else New,
        if r.count == 0 then 1 else r.count,
        if r.firstSeen.Some? then r.firstSeen.value else r.lastSeen.value, r.lastSeen.value, r.evidence)
  }

  function MergedStatus(a: Row, x: Row): Status {
    if x.lastSeen < a.lastSeen then a.status
    else if a.status == Approved then a.status
    else if a.status == Confirmed && x.status == New && x.count <= a.count then a.status
    else x.status
  }

  function Merge(a: Row, x: Row): Row {
    var newer := x.lastSeen >= a.lastSeen;
    Row(if newer then x.kind else a.kind, if newer then x.severity else a.severity,
        if newer then x.message else a.message, if newer then x.ip else a.ip,
        if newer && x.identity != "" then x.identity else a.identity,
        MergedStatus(a, x),
        if x.count > a.count then x.count else a.count,
        if x.firstSeen < a.firstSeen then x.firstSeen else a.firstSeen,
        if x.lastSeen > a.lastSeen then x.lastSeen else a.lastSeen,
        if newer then x.evidence else a.evidence)
  }

  /** The bucket of the reported type and minute, not of the stored ones. */
  function SlotOf(x: Row): Slot { (x.kind, x.lastSeen / MINUTE * MINUTE) }

  function Tally(buckets: map<Slot, Cell>, k: Slot, occurrences: nat, newFindings: nat): map<Slot, Cell> {
    if occurrences == 0 && newFindings == 0 then buckets
    else
      var before := if k in buckets then buckets[k] else Cell(0, 0);
      buckets[k := Cell(before.occurrences + occurrences, before.newFindings + newFindings)]
  }

  function Occurrences(h: History, id: string, x: Row): nat {
    if id in h.rows then Merge(h.rows[id], x).count - h.rows[id].count else 1
  }

  function Apply(h: History, r: Report): History {
    if !Usable(r) then h
    else
      var x := Fresh(r);
      History(h.rows[r.id := if r.id in h.rows then Merge(h.rows[r.id], x) else x],
              Tally(h.buckets, SlotOf(x), Occurrences(h, r.id, x), if r.id in h.rows then 0 else 1))
  }

  /** An operator's verdict, written at once. */
  function Reviewed(h: History, keys: set<string>, status: Status): History {
    h.(rows := map id | id in h.rows :: if id in keys then h.rows[id].(status := status) else h.rows[id])
  }

  datatype Event = Reported(r: Report) | Review(keys: set<string>, status: Status)

  function Step(h: History, e: Event): History {
    match e
    case Reported(r) => Apply(h, r)
    case Review(keys, status) => Reviewed(h, keys, status)
  }

  function Run(h: History, es: seq<Event>): History {
    if es == [] then h else Step(Run(h, es[..|es|-1]), es[|es|-1])
  }

  // ---------- Counts and times do not depend on the order ----------

  /** A report of the alert that is not skipped: reports without an id, or without a time, are. */
  predicate Reports(e: Event, id: string) { e.Reported? && e.r.lastSeen.Some? && e.r.id == id != "" }

  /** The rows a run's reports of one alert would insert. */
  function Sightings(es: seq<Event>, id: string): set<Row> {
    set e | e in es && Reports(e, id) :: Fresh(e.r)
  }

  ghost predicate Greatest(n: int, xs: set<int>) { n in xs && forall x :: x in xs ==> x <= n }
  ghost predicate Least(n: int, xs: set<int>) { n in xs && forall x :: x in xs ==> n <= x }

  /** The largest count, the earliest start and the latest end of the sightings. */
  ghost predicate Summarises(row: Row, xs: set<Row>) {
    && Greatest(row.count, set x | x in xs :: x.count)
    && Least(row.firstSeen, set x | x in xs :: x.firstSeen)
    && Greatest(row.lastSeen, set x | x in xs :: x.lastSeen)
  }

  lemma SightingsNext(es: seq<Event>, id: string)
    requires es != []
    ensures var e := es[|es|-1];
            (Sightings(es, id) == Sightings(es[..|es|-1], id) + if Reports(e, id) then {Fresh(e.r)} else {})
  {
    var before, e := es[..|es|-1], es[|es|-1];
    assert forall x :: x in es <==> x in before || x == e;
  }

  lemma MergeSummarises(a: Row, x: Row, xs: set<Row>)
    requires Summarises(a, xs)
    ensures Summarises(Merge(a, x), xs + {x})
  {
    hide MergedStatus;
    assert Merge(a, x).count == (if x.count > a.count then x.count else a.count)
        && Merge(a, x).firstSeen == (if x.firstSeen < a.firstSeen then x.firstSeen else a.firstSeen)
        && Merge(a, x).lastSeen == (if x.lastSeen > a.lastSeen then x.lastSeen else a.lastSeen);
    hide Merge;
    assert (set y | y in xs + {x} :: y.count) == (set y | y in xs :: y.count) + {x.count};
    assert (set y | y in xs + {x} :: y.firstSeen) == (set y | y in xs :: y.firstSeen) + {x.firstSeen};
    assert (set y | y in xs + {x} :: y.lastSeen) == (set y | y in xs :: y.lastSeen) + {x.lastSeen};
  }

  lemma FreshSummarises(x: Row)
    ensures Summarises(x, {x})
  {
    assert (set y | y in {x} :: y.count) == {x.count};
    assert (set y | y in {x} :: y.firstSeen) == {x.firstSeen};
    assert (set y | y in {x} :: y.lastSeen) == {x.lastSeen};
  }

  lemma VerdictSummarises(a: Row, status: Status, xs: set<Row>)
    requires Summarises(a, xs)
    ensures Summarises(a.(status := status), xs)
  {
  }

  lemma {:induction false} RowsSummariseReports(es: seq<Event>, id: string)
    ensures id in Run(NO_HISTORY, es).rows <==> Sightings(es, id) != {}
    ensures id in Run(NO_HISTORY, es).rows ==> Summarises(Run(NO_HISTORY, es).rows[id], Sightings(es, id))
  {
    hide Summarises, Merge, Fresh, Tally, Occurrences, Sightings;
    if es == [] {
      NoSightings(id);
    } else {
      var before, e := es[..|es|-1], es[|es|-1];
      RowsSummariseReports(before, id);
      SightingsNext(es, id);
      var h := Run(NO_HISTORY, before);
      match e
      case Reported(r) =>
        if Usable(r) && r.id == id {
          if id in h.rows {
            MergeSummarises(h.rows[id], Fresh(r), Sightings(before, id));
          } else {
            FreshSummarises(Fresh(r));
            assert Sightings(es, id) == {Fresh(r)};
          }
        } else {
          assert Sightings(es, id) == Sightings(before, id);
        }
      case Review(keys, status) =>
        assert Sightings(es, id) == Sightings(before, id);
        if id in h.rows { VerdictSummarises(h.rows[id], status, Sightings(before, id)); }
    }
  }

  function CountsReported(es: seq<Event>, id: string): set<int> {
    set e | e in es && Reports(e, id) :: if e.r.count > 0 then e.r.count else 1
  }

  function StartsReported(es: seq<Event>, id: string): set<int> {
    set e | e in es && Reports(e, id) :: if e.r.firstSeen.None? then e.r.lastSeen.value else e.r.firstSeen.value
  }

  function EndsReported(es: seq<Event>, id: string): set<int> {
    set e | e in es && Reports(e, id) :: e.r.lastSeen.value
  }

  /** An alert is stored exactly if it was reported, with the largest count, the earliest start and the latest end of its
      reports; a report without a count counts once, one without a start starts when it ends. */
  lemma RowsSpanReports(es: seq<Event>, id: string)
    ensures id in Run(NO_HISTORY, es).rows <==> exists e :: e in es && Reports(e, id)
    ensures id in Run(NO_HISTORY, es).rows ==>
              var row := Run(NO_HISTORY, es).rows[id];
              && Greatest(row.count, CountsReported(es, id))
              && Least(row.firstSeen, StartsReported(es, id))
              && Greatest(row.lastSeen, EndsReported(es, id))
  {
    RowsSummariseReports(es, id);
    hide Run, Fresh;
    var xs := Sightings(es, id);
    forall e | e in es && Reports(e, id) ensures Fresh(e.r) in xs {}
    assert xs != {} <==> exists e :: e in es && Reports(e, id);
    SpansAreReported(es, id);
  }

  lemma SpansAreReported(es: seq<Event>, id: string)
    ensures CountsReported(es, id) == set x | x in Sightings(es, id) :: x.count
    ensures StartsReported(es, id) == set x | x in Sightings(es, id) :: x.firstSeen
    ensures EndsReported(es, id) == set x | x in Sightings(es, id) :: x.lastSeen
  {
    var xs := Sightings(es, id);
    forall e | e in es && Reports(e, id) ensures Fresh(e.r) in xs {}
    forall x | x in xs ensures exists e :: e in es && Reports(e, id) && Fresh(e.r) == x {}
  }

  lemma NoSightings(id: string)
    ensures Sightings([], id) == {}
  {
  }

  /** Two runs that report the same sightings of an alert, in any order and however often, interleaved with
      any verdicts, agree on its existence, count, first and last time. */
  lemma OrderDoesNotMatter(es: seq<Event>, fs: seq<Event>, id: string)
    requires Sightings(es, id) == Sightings(fs, id)
    ensures id in Run(NO_HISTORY, es).rows <==> id in Run(NO_HISTORY, fs).rows
    ensures id in Run(NO_HISTORY, es).rows ==>
              var a, b := Run(NO_HISTORY, es).rows[id], Run(NO_HISTORY, fs).rows[id];
              a.count == b.count && a.firstSeen == b.firstSeen && a.lastSeen == b.lastSeen
  {
    hide Run, Sightings;
    RowsSummariseReports(es, id);
    RowsSummariseReports(fs, id);
  }

  // ---------- Verdicts ----------

  predicate OnlyReports(es: seq<Event>) { forall i :: 0 <= i < |es| ==> es[i].Reported? }

  /** No report, early, late or repeated, changes an approved alert's status. */
  lemma {:induction false} ApprovedIsPermanent(h: History, es: seq<Event>, id: string)
    requires OnlyReports(es) && id in h.rows && h.rows[id].status == Approved
    ensures id in Run(h, es).rows && Run(h, es).rows[id].status == Approved
  {
    if es != [] { ApprovedIsPermanent(h, es[..|es|-1], id); }
  }

  predicate Settled(row: Row) { row.status == Confirmed || row.status == Approved }

  /** Report `i` of the run takes the alert out of a confirmed verdict: it is no older than the last sighting, and
      announces more occurrences than are known, or carries a status that is none of the three known ones. */
  ghost predicate UnsettlesAt(h: History, es: seq<Event>, i: nat, id: string)
    requires i < |es|
  {
    var before := Run(h, es[..i]);
    && id in before.rows && before.rows[id].status == Confirmed && Reports(es[i], id)
    && Fresh(es[i].r).lastSeen >= before.rows[id].lastSeen
    && (Fresh(es[i].r).status.Other?
        || (Fresh(es[i].r).status == New && Fresh(es[i].r).count > before.rows[id].count))
  }

  ghost predicate SettledAt(h: History, es: seq<Event>, i: nat, id: string)
    requires i <= |es|
  {
    id in Run(h, es[..i]).rows && Settled(Run(h, es[..i]).rows[id])
  }

  lemma SettledNext(h: History, es: seq<Event>, i: nat, id: string)
    requires OnlyReports(es) && i < |es| && SettledAt(h, es, i, id)
    ensures SettledAt(h, es, i + 1, id) <==> !UnsettlesAt(h, es, i, id)
  {
    hide Tally, Occurrences;
    assert es[..i+1][..i] == es[..i] && es[..i+1][i] == es[i];
    var before := Run(h, es[..i]);
    assert Run(h, es[..i+1]) == Step(before, es[i]);
    if Reports(es[i], id) { MergeUnsettles(before.rows[id], Fresh(es[i].r)); }
  }

  lemma MergeUnsettles(row: Row, x: Row)
    requires Settled(row)
    ensures Settled(Merge(row, x)) <==>
              !(row.status == Confirmed && x.lastSeen >= row.lastSeen && (x.status.Other? || (x.status == New && x.count > row.count)))
  {
  }

  /** Over any run of reports a settled alert, confirmed or approved, stays settled throughout exactly if no report
      takes it out of a confirmed verdict. */
  lemma {:induction false} ConfirmedReopensOnlyOnRecurrence(h: History, es: seq<Event>, id: string, n: nat)
    requires OnlyReports(es) && n <= |es| && id in h.rows && Settled(h.rows[id])
    ensures (forall i :: 0 <= i <= n ==> SettledAt(h, es, i, id)) <==> (forall i :: 0 <= i < n ==> !UnsettlesAt(h, es, i, id))
  {
    hide UnsettlesAt;
    if n == 0 {
      assert es[..0] == [] && SettledAt(h, es, 0, id);
    } else {
      ConfirmedReopensOnlyOnRecurrence(h, es, id, n - 1);
      hide SettledAt;
      if SettledAt(h, es, n - 1, id) { SettledNext(h, es, n - 1, id); }
    }
  }

  // ---------- What an alert says ----------

  /** The report speaks for the alert: it is not older than the one that did. */
  predicate Speaks(before: Option<Report>, e: Event, id: string) {
    Reports(e, id) && (before.Some? && before.value.lastSeen.Some? ==> e.r.lastSeen.value >= before.value.lastSeen.value)
  }

  /** The last report that spoke for an alert. */
  function Speaker(es: seq<Event>, id: string): Option<Report> {
    if es == [] then None
    else
      var before := Speaker(es[..|es|-1], id);
      if Speaks(before, es[|es|-1], id) then Some(es[|es|-1].r) else before
  }

  /** The last identity a report gave that spoke for the alert, blank if none did. */
  function NamedIdentity(es: seq<Event>, id: string): string {
    if es == [] then ""
    else
      var before, e := es[..|es|-1], es[|es|-1];
      if Speaks(Speaker(before, id), e, id) && e.r.identity != "" then e.r.identity else NamedIdentity(before, id)
  }

  lemma {:induction false} NobodySpoke(es: seq<Event>, id: string)
    requires Speaker(es, id).None?
    ensures NamedIdentity(es, id) == ""
  {
    if es != [] { NobodySpoke(es[..|es|-1], id); }
  }

  ghost predicate SpokenFor(row: Row, r: Report, identity: string) {
    && r.lastSeen == Some(row.lastSeen) && row.kind == r.kind && row.severity == r.severity && row.message == r.message
    && row.ip == r.ip && row.evidence == r.evidence && row.identity == identity
  }

  lemma SpeakerNext(row: Row, r: Report, identity: string, x: Report)
    requires SpokenFor(row, r, identity) && x.lastSeen.Some?
    ensures if x.lastSeen.value >= row.lastSeen
            then SpokenFor(Merge(row, Fresh(x)), x, if x.identity != "" then x.identity else identity)
            else SpokenFor(Merge(row, Fresh(x)), r, identity)
    ensures !Settled(row) ==>
              Merge(row, Fresh(x)).status
              == (if x.lastSeen.value < row.lastSeen then row.status else if x.status.Some? then x.status.value else New)
  {
  }

  /** Type, severity, message, address and evidence of an alert are those of the report that speaks for it, and so is its
      status while no verdict was given and it is neither confirmed nor approved. */
  lemma {:induction false} LatestReportSpeaks(es: seq<Event>, id: string)
    ensures id in Run(NO_HISTORY, es).rows <==> Speaker(es, id).Some?
    ensures id in Run(NO_HISTORY, es).rows ==>
              && SpokenFor(Run(NO_HISTORY, es).rows[id], Speaker(es, id).value, NamedIdentity(es, id))
              && (OnlyReports(es) && !Settled(Run(NO_HISTORY, es).rows[id]) ==>
                    Run(NO_HISTORY, es).rows[id].status
                    == (if Speaker(es, id).value.status.Some? then Speaker(es, id).value.status.value else New))
  {
    hide Tally, Occurrences, Merge;
    if es != [] {
      var before, e := es[..|es|-1], es[|es|-1];
      var h := Run(NO_HISTORY, before);
      LatestReportSpeaks(before, id);
      if Reports(e, id) {
        if id in h.rows {
          SpeakerNext(h.rows[id], Speaker(before, id).value, NamedIdentity(before, id), e.r);
          if Settled(h.rows[id]) && !Settled(Merge(h.rows[id], Fresh(e.r))) { MergeFromSettled(h.rows[id], Fresh(e.r)); }
        } else {
          NobodySpoke(before, id);
        }
      }
    }
  }

  lemma MergeFromSettled(row: Row, x: Row)
    requires Settled(row) && !Settled(Merge(row, x))
    ensures x.lastSeen >= row.lastSeen && Merge(row, x).status == x.status
  {
  }

  /** The last verdict given on an alert while it was stored. */
  function LastVerdict(es: seq<Event>, id: string): Option<Status> {
    if es == [] then None
    else
      var e := es[|es|-1];
      if e.Review? && id in e.keys && id in Run(NO_HISTORY, es[..|es|-1]).rows then Some(e.status)
      else LastVerdict(es[..|es|-1], id)
  }

  /** What a verdict is worth: the alert is still stored, and if it was approved it is approved, whatever was reported
      about it and decided about others since. */
  lemma {:induction false} VerdictStands(es: seq<Event>, id: string)
    requires LastVerdict(es, id).Some?
    ensures id in Run(NO_HISTORY, es).rows
    ensures LastVerdict(es, id) == Some(Approved) ==> Run(NO_HISTORY, es).rows[id].status == Approved
  {
    var before, e := es[..|es|-1], es[|es|-1];
    if !(e.Review? && id in e.keys && id in Run(NO_HISTORY, before).rows) { VerdictStands(before, id); }
  }

  /** The verdict, if the last that happened to an alert is one. */
  function LastWord(es: seq<Event>, id: string): Option<Status> {
    if es == [] then None
    else
      var e := es[|es|-1];
      if e.Review? && id in e.keys then Some(e.status)
      else if Reports(e, id) then None
      else LastWord(es[..|es|-1], id)
  }

  /** A verdict, whatever the status was before it, is the status until the alert is reported again. */
  lemma {:induction false} VerdictIsTheStatus(es: seq<Event>, id: string)
    requires id in Run(NO_HISTORY, es).rows && LastWord(es, id).Some?
    ensures Run(NO_HISTORY, es).rows[id].status == LastWord(es, id).value
  {
    hide Merge, Tally, Occurrences, Fresh;
    var before, e := es[..|es|-1], es[|es|-1];
    if !(e.Review? && id in e.keys) { VerdictIsTheStatus(before, id); }
  }

  // ---------- Occurrence buckets ----------

  function OccurrenceCells(buckets: map<Slot, Cell>): map<Slot, nat> { map k | k in buckets :: buckets[k].occurrences }

  function FindingCells(buckets: map<Slot, Cell>): map<Slot, nat> { map k | k in buckets :: buckets[k].newFindings }

  /** The count each alert was first stored with. */
  function FirstCounts(es: seq<Event>): map<string, nat> {
    if es == [] then map[]
    else
      var before, e := FirstCounts(es[..|es|-1]), es[|es|-1];
      if e.Reported? && Usable(e.r) && e.r.id !in Run(NO_HISTORY, es[..|es|-1]).rows then before[e.r.id := Fresh(e.r).count]
      else before
  }

  /** One for the alert itself and one for every count gained since it was first stored. */
  function Gain(row: Row, first: nat): nat { if row.count >= first then row.count - first + 1 else 0 }

  function Gains(rows: map<string, Row>, firsts: map<string, nat>): map<string, nat> {
    map id | id in rows :: Gain(rows[id], if id in firsts then firsts[id] else 0)
  }

  lemma TallyAdds(buckets: map<Slot, Cell>, k: Slot, occurrences: nat, newFindings: nat)
    ensures Total(OccurrenceCells(Tally(buckets, k, occurrences, newFindings))) == Total(OccurrenceCells(buckets)) + occurrences
    ensures Total(FindingCells(Tally(buckets, k, occurrences, newFindings))) == Total(FindingCells(buckets)) + newFindings
  {
    hide Total;
    var after := Tally(buckets, k, occurrences, newFindings);
    if occurrences != 0 || newFindings != 0 {
      var a, b := OccurrenceCells(buckets), FindingCells(buckets);
      if k in buckets {
        assert OccurrenceCells(after) == a[k := a[k] + occurrences];
        assert FindingCells(after) == b[k := b[k] + newFindings];
        TotalUpdate(a, k, a[k] + occurrences);
        TotalUpdate(b, k, b[k] + newFindings);
      } else {
        assert OccurrenceCells(after) == a[k := occurrences] && FindingCells(after) == b[k := newFindings];
        TotalInsert(a, k, occurrences);
        TotalInsert(b, k, newFindings);
      }
    }
  }

  lemma {:induction false} FirstCountsKnown(es: seq<Event>, id: string)
    ensures id in FirstCounts(es) <==> id in Run(NO_HISTORY, es).rows
    ensures id in FirstCounts(es) ==> 1 <= FirstCounts(es)[id] <= Run(NO_HISTORY, es).rows[id].count
  {
    hide Tally, Occurrences, MergedStatus;
    if es != [] { FirstCountsKnown(es[..|es|-1], id); }
  }

  lemma GainsAfterReport(es: seq<Event>, r: Report)
    requires Usable(r)
    ensures Total(Gains(Run(NO_HISTORY, es + [Reported(r)]).rows, FirstCounts(es + [Reported(r)])))
         == Total(Gains(Run(NO_HISTORY, es).rows, FirstCounts(es))) + Occurrences(Run(NO_HISTORY, es), r.id, Fresh(r))
  {
    hide Tally, MergedStatus, Total, Fresh;
    var all, h := es + [Reported(r)], Run(NO_HISTORY, es);
    assert all[..|es|] == es;
    FirstCountsKnown(es, r.id);
    var a, b := Gains(h.rows, FirstCounts(es)), Gains(Run(NO_HISTORY, all).rows, FirstCounts(all));
    if r.id in h.rows {
      assert b == a[r.id := a[r.id] + Occurrences(h, r.id, Fresh(r))];
      TotalUpdate(a, r.id, a[r.id] + Occurrences(h, r.id, Fresh(r)));
    } else {
      assert b == a[r.id := 1];
      TotalInsert(a, r.id, 1);
    }
  }

  lemma GainsAfterVerdict(es: seq<Event>, keys: set<string>, status: Status)
    ensures Gains(Run(NO_HISTORY, es + [Review(keys, status)]).rows, FirstCounts(es + [Review(keys, status)]))
         == Gains(Run(NO_HISTORY, es).rows, FirstCounts(es))
  {
    hide MergedStatus, Fresh, Tally, Occurrences, Apply;
    var all := es + [Review(keys, status)];
    assert all[..|es|] == es;
    assert FirstCounts(all) == FirstCounts(es);
    assert Run(NO_HISTORY, all) == Reviewed(Run(NO_HISTORY, es), keys, status);
    hide Run, FirstCounts;
  }

  /** All buckets together hold one occurrence per alert plus every count it gained since it was first stored,
      and exactly one new finding per alert. */
  lemma {:induction false} BucketsAddUp(es: seq<Event>)
    ensures Total(OccurrenceCells(Run(NO_HISTORY, es).buckets)) == Total(Gains(Run(NO_HISTORY, es).rows, FirstCounts(es)))
    ensures Total(FindingCells(Run(NO_HISTORY, es).buckets)) == |Run(NO_HISTORY, es).rows|
  {
    hide Tally, Occurrences, Gains, FirstCounts, Total, OccurrenceCells, FindingCells;
    if es == [] {
      NothingToAdd();
    } else {
      var before, e := es[..|es|-1], es[|es|-1];
      BucketsAddUp(before);
      assert es == before + [e];
      var h := Run(NO_HISTORY, before);
      match e
      case Reported(r) =>
        if Usable(r) {
          var x := Fresh(r);
          TallyAdds(h.buckets, SlotOf(x), Occurrences(h, r.id, x), if r.id in h.rows then 0 else 1);
          GainsAfterReport(before, r);
          RowsAfterReport(h, r);
        } else {
          UnusableKeepsFirstCounts(before, r);
        }
      case Review(keys, status) =>
        GainsAfterVerdict(before, keys, status);
        RowsAfterVerdict(h, keys, status);
    }
  }

  lemma NothingToAdd()
    ensures Total(OccurrenceCells(Run(NO_HISTORY, []).buckets)) == 0 == Total(FindingCells(Run(NO_HISTORY, []).buckets))
    ensures Total(Gains(Run(NO_HISTORY, []).rows, FirstCounts([]))) == 0
  {
    assert OccurrenceCells(map[]) == map[] && FindingCells(map[]) == map[] && Gains(map[], map[]) == map[];
  }

  lemma RowsAfterReport(h: History, r: Report)
    requires Usable(r)
    ensures |Apply(h, r).rows| == |h.rows| + if r.id in h.rows then 0 else 1
  {
    hide Merge, Tally, Occurrences;
    var row := if r.id in h.rows then Merge(h.rows[r.id], Fresh(r)) else Fresh(r);
    SizeRemove(h.rows[r.id := row], r.id);
    assert h.rows[r.id := row] - {r.id} == h.rows - {r.id};
    if r.id in h.rows { SizeRemove(h.rows, r.id); } else { assert h.rows - {r.id} == h.rows; }
  }

  lemma RowsAfterVerdict(h: History, keys: set<string>, status: Status)
    ensures |Reviewed(h, keys, status).rows| == |h.rows|
  {
    assert Reviewed(h, keys, status).rows.Keys == h.rows.Keys;
    assert |h.rows| == |h.rows.Keys| && |Reviewed(h, keys, status).rows| == |Reviewed(h, keys, status).rows.Keys|;
  }

  lemma UnusableKeepsFirstCounts(es: seq<Event>, r: Report)
    requires !Usable(r)
    ensures FirstCounts(es + [Reported(r)]) == FirstCounts(es)
  {
    assert (es + [Reported(r)])[..|es|] == es;
  }

  // ---------- Which bucket counts what ----------

  /** A usable report of this kind, last seen within the minute. */
  predicate Falls(r: Report, kind: string, minute: int) {
    r.id != "" && r.lastSeen.Some? && r.kind == kind && minute <= r.lastSeen.value < minute + MINUTE
  }

  /** What a report adds to the occurrences: one for a new alert, else the counts beyond the stored one. */
  function Gained(h: History, r: Report): nat {
    var count := if r.count == 0 then 1 else r.count;
    if r.id !in h.rows then 1 else if count > h.rows[r.id].count then count - h.rows[r.id].count else 0
  }

  /** What the reports of a kind last seen within a minute gained. */
  function GainedIn(es: seq<Event>, kind: string, minute: int): nat {
    if es == [] then 0
    else
      var before, e := es[..|es|-1], es[|es|-1];
      GainedIn(before, kind, minute)
      + if e.Reported? && Falls(e.r, kind, minute) then Gained(Run(NO_HISTORY, before), e.r) else 0
  }

  /** How many alerts those reports created. */
  function CreatedIn(es: seq<Event>, kind: string, minute: int): nat {
    if es == [] then 0
    else
      var before, e := es[..|es|-1], es[|es|-1];
      CreatedIn(before, kind, minute)
      + if e.Reported? && Falls(e.r, kind, minute) && e.r.id !in Run(NO_HISTORY, before).rows then 1 else 0
  }

  /** An absent cell counts nothing. */
  function CellOf(h: History, k: Slot): Cell { if k in h.buckets then h.buckets[k] else Cell(0, 0) }

  lemma WholeMinute(x: Row, kind: string, minute: int)
    requires minute % MINUTE == 0
    ensures SlotOf(x) == (kind, minute) <==> x.kind == kind && minute <= x.lastSeen < minute + MINUTE
  {
  }

  lemma CellNext(h: History, r: Report, kind: string, minute: int)
    requires minute % MINUTE == 0
    ensures var before, falls := CellOf(h, (kind, minute)), Falls(r, kind, minute);
            CellOf(Apply(h, r), (kind, minute)) ==
              Cell(before.occurrences + (if falls then Gained(h, r) else 0),
                   before.newFindings + if falls && r.id !in h.rows then 1 else 0)
  {
    if Usable(r) { WholeMinute(Fresh(r), kind, minute); }
    hide SlotOf, MergedStatus;
  }

  /** Whatever was reported and decided: the bucket of a kind and a whole minute counts exactly what the usable
      reports of that kind last seen within that minute gained, and the alerts they created. */
  lemma {:induction false} MinuteCountsItsReports(es: seq<Event>, kind: string, minute: int)
    requires minute % MINUTE == 0
    ensures CellOf(Run(NO_HISTORY, es), (kind, minute)) == Cell(GainedIn(es, kind, minute), CreatedIn(es, kind, minute))
  {
    hide Apply, Falls, Gained;
    if es != [] {
      var before, e := es[..|es|-1], es[|es|-1];
      MinuteCountsItsReports(before, kind, minute);
      if e.Reported? { CellNext(Run(NO_HISTORY, before), e.r, kind, minute); }
    }
  }

  /** There are no other buckets, and none is empty. */
  lemma {:induction false} BucketsAreMinutes(es: seq<Event>, k: Slot)
    requires k in Run(NO_HISTORY, es).buckets
    ensures k.1 % MINUTE == 0
    ensures Run(NO_HISTORY, es).buckets[k].occurrences > 0
  {
    hide MergedStatus;
    var before, e := es[..|es|-1], es[|es|-1];
    if k in Run(NO_HISTORY, before).buckets { BucketsAreMinutes(before, k); }
  }

  // ---------- Announcements ----------

  /** The reports that inserted a row: each is announced as a new alert. */
  function Announced(h: History, es: seq<Event>): seq<string> {
    if es == [] then []
    else
      var before, e := es[..|es|-1], es[|es|-1];
      Announced(h, before)
      + if e.Reported? && Reports(e, e.r.id) && e.r.id !in Run(h, before).rows then [e.r.id] else []
  }

  /** Over any run, an alert is announced exactly once if it was unknown and is known at the end, else never. */
  lemma {:induction false} AnnouncedOnce(h: History, es: seq<Event>, id: string)
    ensures multiset(Announced(h, es))[id] == if id in Run(h, es).rows && id !in h.rows then 1 else 0
    ensures id in h.rows ==> id in Run(h, es).rows
  {
    hide Merge, Fresh, Tally, Occurrences;
    if es != [] {
      AnnouncedOnce(h, es[..|es|-1], id);
    }
  }

  // ---------- The tables, updated in place ----------

  function AsEvents(rs: seq<Report>): (es: seq<Event>)
    ensures |es| == |rs| && forall i :: 0 <= i < |rs| ==> es[i] == Reported(rs[i])
  {
    seq(|rs|, i requires 0 <= i < |rs| => Reported(rs[i]))
  }

  class AlertTables {
    var rows: map<string, Row>
    var buckets: map<Slot, Cell>

    ghost function View(): History reads this { History(rows, buckets) }

    constructor ()
      ensures View() == NO_HISTORY
    {
      rows, buckets := map[], map[];
    }

    /** One report as one statement; says whether it inserted a row. */
    method UpsertOne(r: Report) returns (inserted: bool)
      requires Usable(r)
      modifies this
      ensures View() == Apply(old(View()), r)
      ensures inserted == (r.id !in old(rows))
    {
      hide Merge;
      var x := Fresh(r);
      inserted := r.id !in rows;
      var occurrences, newFindings: nat := 1, 1;
      if !inserted {
        MergeKeepsCount(rows[r.id], x);
        var merged := Merge(rows[r.id], x);
        occurrences, newFindings := merged.count - rows[r.id].count, 0;
        x := merged;
      }
      rows := rows[r.id := x];
      buckets := Tally(buckets, SlotOf(Fresh(r)), occurrences, newFindings);
    }

    /** One batch of reports, in order; returns the alerts that are new. */
    method Upsert(alerts: seq<Report>) returns (created: seq<string>)
      modifies this
      ensures View() == Run(old(View()), AsEvents(alerts))
      ensures created == Announced(old(View()), AsEvents(alerts))
    {
      hide Apply;
      ghost var start, es := View(), AsEvents(alerts);
      created := [];
      for i := 0 to |alerts|
        invariant View() == Run(start, es[..i]) && created == Announced(start, es[..i])
      {
        assert es[..i+1][..i] == es[..i];
        var r := alerts[i];
        if r.id == "" || r.lastSeen.None? {
          SkippedReport(View(), r);
        } else {
          var inserted := UpsertOne(r);
          if inserted { created := created + [r.id]; }
        }
      }
      assert es[..|es|] == es;
    }

    method MarkReviewed(keys: seq<string>, status: Status)
      modifies this
      ensures View() == Reviewed(old(View()), (set k | k in keys), status)
    {
      if |keys| == 0 {
        assert Reviewed(View(), {}, status).rows == rows;
        return;
      }
      rows := map id | id in rows :: if id in keys then rows[id].(status := status) else rows[id];
      assert rows == Reviewed(old(View()), (set k | k in keys), status).rows;
    }
  }

  lemma MergeKeepsCount(a: Row, x: Row)
    ensures Merge(a, x).count >= a.count
  {
  }

  lemma SkippedReport(h: History, r: Report)
    requires !Usable(r)
    ensures Apply(h, r) == h
  {
  }
}
