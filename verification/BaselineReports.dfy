/** What a snapshot reports of the shadow candidates, in terms of what happened. */
module BaselineReports {
  import opened Options
  import opened BaselineModel
  import opened BaselineSpec
  import opened BaselineSnapshot
  import opened BaselineHistory

  /** A row of the report says what the candidate's life says. */
  ghost predicate Tells(c: Config, r: CandidateRow, life: ShadowLife) {
    && life.samples != [] && r.key == life.samples[0].key
    && r.firstSeen == life.samples[0].at && r.lastSeen == life.samples[|life.samples|-1].at
    && r.observations == |life.samples| && r.distinctDays == |Days(life.samples)|
    && (forall d :: d in r.days <==> d in Days(life.samples))
    && (r.eligible <==> life.refused.None?)
    && (r.ready <==> Ripe(c, Some(life)))
  }

  /** Whatever happened before a snapshot, it reports every candidate alive, with the samples, days and exclusions of its
      life, and as ready exactly if promoting it would succeed. */
  lemma CandidateReportsFollowHistory(c: Config, es: seq<Event>, now: Time, s: Snapshot, id: CandidateId)
    requires ValidConfig(c) && LegalRun(c, Initial(), es) && IsSnapshot(c, Run(c, Initial(), es), now, s)
    ensures CandidateLife(c, es, id).Some? <==> exists r :: r in s.candidates && r.id == id
    ensures forall r :: r in s.candidates && r.id == id ==> Tells(c, r, CandidateLife(c, es, id).value)
    ensures forall r :: r in s.candidates && r.id == id ==> (r.ready <==> PromoteVerdict(c, Run(c, Initial(), es), id) == Promoted)
  {
    hide Run, LegalRun, CandidateLife, Records, ModeAt, Days, ListsFlows, ListsAssets, PromotedAt, PromoteVerdict;
    CandidatesFollowHistory(c, es, id);
    VerdictFollowsHistory(c, es, id);
    var st := Run(c, Initial(), es);
    forall r | r in s.candidates && r.id == id ensures Tells(c, r, CandidateLife(c, es, id).value) {
      assert ReportsCandidate(c, st.candidates[id], r);
      assert forall d :: d in r.days <==> d in (set d | d in r.days);
    }
  }
}
