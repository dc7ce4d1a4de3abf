// The ingest stage: two paid probes whose usage is checkpointed at once, then
// one upload per outstanding document, each recorded before the next.

module IngestStage {
  import opened Wrappers
  import opened Orders
  import opened Records
  import AnswerLoop
  import opened AnswerProofs
  import opened AnswerRun
  import opened RunHistory
  import opened RunStages
  import opened StageRuns

  // ---- the preflight probes ----

  /** What one paid probe can come to. */
  datatype ProbeReply =
    | ProbeUnaccounted
    | ProbeFailed(billed: Option<Usage>)
    | Probe(usage: Usage, ok: bool)
    | ProbeCrash

  class Prober {
    const replies: nat -> ProbeReply
    var calls: nat

    constructor (replies: nat -> ProbeReply)
      ensures this.replies == replies && calls == 0
    {
      this.replies := replies;
      calls := 0;
    }

    method Call() returns (reply: ProbeReply)
      modifies this
      ensures reply == replies(old(calls)) && calls == old(calls) + 1
    {
      reply := replies(calls);
      calls := calls + 1;
    }
  }

  function ProbeUsage(reply: ProbeReply): seq<Usage> {
    match reply
    case ProbeFailed(billed) => BilledUsages(billed)
    case Probe(u, _) => [u]
    case _ => []
  }

  /** The usages reported by the probes number `lo` up to, and not including, `hi`. */
  function ProbeUsages(replies: nat -> ProbeReply, lo: nat, hi: nat): seq<Usage>
    requires lo <= hi
    decreases hi
  {
    if lo == hi then [] else ProbeUsages(replies, lo, hi - 1) + ProbeUsage(replies(hi - 1))
  }

  /** The checkpoint after some more probe usages. */
  ghost function Probes(s: State, usages: seq<Usage>): State {
    s.(preflightUsages := s.preflightUsages + usages, cost := s.cost + Cost(usages))
  }

  /** Makes one probe's usage durable before anything else happens. */
  method RecordProbe(dir: RunDirectory, state: RunState, usage: Usage)
    requires dir.Valid() && state.Value() == dir.saved
    modifies dir, state`preflightUsages, state`cost
    ensures dir.Valid() && old(dir.Saves()) <= dir.Saves()
    ensures state.Value() == dir.saved == Probes(old(dir.saved), [usage])
    ensures dir.saved.cost == old(dir.saved.cost) + usage.cost
  {
    CostOfOne(usage);
    state.preflightUsages := state.preflightUsages + [usage];
    state.cost := state.cost + usage.cost;
    dir.Save(state, Probed(usage));
  }

  predicate Passes(reply: ProbeReply, pinned: Option<string>) {
    reply.Probe? && (pinned.Some? ==> reply.ok && reply.usage.model == pinned.value)
  }

  /** One probe: guarded by the threshold, and paid for in the checkpoint
      whatever it comes to. A chat probe must also answer ok from the pinned model. */
  method RunProbe(dir: RunDirectory, state: RunState, ceiling: int, pinned: Option<string>, prober: Prober)
    returns (ok: bool)
    requires dir.Valid() && state.Value() == dir.saved
    modifies dir, state`preflightUsages, state`cost, prober
    ensures dir.Valid() && old(dir.Saves()) <= dir.Saves()
    ensures state.Value() == dir.saved
    ensures prober.calls == old(prober.calls) + if AnswerLoop.MaySpend(old(dir.saved.cost), ceiling) then 1 else 0
    ensures dir.saved == Probes(old(dir.saved), ProbeUsages(prober.replies, old(prober.calls), prober.calls))
    ensures ok <==>
      AnswerLoop.MaySpend(old(dir.saved.cost), ceiling) && Passes(prober.replies(old(prober.calls)), pinned)
    ensures ok ==> dir.saved.cost == old(dir.saved.cost) + prober.replies(old(prober.calls)).usage.cost
  {
    NoProbe(dir.saved);
    if ceiling <= 0 || state.cost >= ceiling {
      return false;
    }
    var reply := prober.Call();
    OneProbe(prober.replies, prober.calls - 1);
    match reply {
      case ProbeFailed(billed) =>
        if billed.Some? { RecordProbe(dir, state, billed.value); }
        ok := false;
      case Probe(usage, fine) =>
        RecordProbe(dir, state, usage);
        ok := pinned.None? || (fine && usage.model == pinned.value);
      case ProbeUnaccounted =>
        ok := false;
      case ProbeCrash =>
        ok := false;
    }
  }

  lemma NoProbe(s: State)
    ensures Probes(s, []) == s
  {
    assert s.preflightUsages + [] == s.preflightUsages;
  }

  lemma OneProbe(replies: nat -> ProbeReply, k: nat)
    ensures ProbeUsages(replies, k, k + 1) == ProbeUsage(replies(k))
  {
    assert ProbeUsages(replies, k, k) == [];
  }

  lemma ProbesTwice(s: State, replies: nat -> ProbeReply, a: nat, b: nat, c: nat)
    requires a <= b <= c
    ensures Probes(Probes(s, ProbeUsages(replies, a, b)), ProbeUsages(replies, b, c))
      == Probes(s, ProbeUsages(replies, a, c))
  {
    ProbeUsagesAdd(replies, a, b, c);
    CostOfConcat(ProbeUsages(replies, a, b), ProbeUsages(replies, b, c));
    assert s.preflightUsages + ProbeUsages(replies, a, b) + ProbeUsages(replies, b, c)
        == s.preflightUsages + (ProbeUsages(replies, a, b) + ProbeUsages(replies, b, c));
  }

  lemma {:induction false} ProbeUsagesAdd(replies: nat -> ProbeReply, a: nat, b: nat, c: nat)
    requires a <= b <= c
    ensures ProbeUsages(replies, a, c) == ProbeUsages(replies, a, b) + ProbeUsages(replies, b, c)
    decreases c
  {
    if b < c { ProbeUsagesAdd(replies, a, b, c - 1); }
  }

  /** Both probes pass, and the threshold is open before, between and after them. */
  ghost predicate ProbesPass(replies: nat -> ProbeReply, first: nat, spent: int, ceiling: int, model: string) {
    && AnswerLoop.MaySpend(spent, ceiling) && Passes(replies(first), Some(model))
    && AnswerLoop.MaySpend(spent + replies(first).usage.cost, ceiling) && Passes(replies(first + 1), None)
    && AnswerLoop.MaySpend(spent + replies(first).usage.cost + replies(first + 1).usage.cost, ceiling)
  }

  /** The probes pass if and only if the chat model answers ok under its pinned name,
      the embedding model answers, and the spend stays below the threshold. */
  lemma ProbesPassTells(replies: nat -> ProbeReply, first: nat, spent: int, ceiling: int, model: string)
    ensures
      var chat, embedding := replies(first), replies(first + 1);
      ProbesPass(replies, first, spent, ceiling, model) <==>
        && chat.Probe? && chat.ok && chat.usage.model == model
        && embedding.Probe?
        && ceiling > 0 && spent + chat.usage.cost + embedding.usage.cost < ceiling
  {
  }

  /** Two probes in turn, the second one only after the first passed. */
  lemma ProbesInTurn(
      replies: nat -> ProbeReply, first: nat, spent: int, between: int, after: int, ceiling: int, model: string,
      one: bool, two: bool)
    requires one <==> AnswerLoop.MaySpend(spent, ceiling) && Passes(replies(first), Some(model))
    requires one ==> between == spent + replies(first).usage.cost
    requires one ==> (two <==> AnswerLoop.MaySpend(between, ceiling) && Passes(replies(first + 1), None))
    requires one && two ==> after == between + replies(first + 1).usage.cost
    ensures one && two && AnswerLoop.MaySpend(after, ceiling) <==> ProbesPass(replies, first, spent, ceiling, model)
  {
  }

  /** Both probes, and a last look at the threshold. */
  method Preflight(dir: RunDirectory, state: RunState, ceiling: int, model: string, prober: Prober) returns (ok: bool)
    requires dir.Valid() && state.Value() == dir.saved
    modifies dir, state`preflightUsages, state`cost, prober
    ensures dir.Valid() && old(dir.Saves()) <= dir.Saves()
    ensures state.Value() == dir.saved
    ensures old(prober.calls) <= prober.calls <= old(prober.calls) + 2
    ensures dir.saved == Probes(old(dir.saved), ProbeUsages(prober.replies, old(prober.calls), prober.calls))
    ensures ok ==> prober.calls == old(prober.calls) + 2 && AnswerLoop.MaySpend(dir.saved.cost, ceiling)
    ensures ok <==> ProbesPass(prober.replies, old(prober.calls), old(dir.saved.cost), ceiling, model)
  {
    ghost var s, c := dir.saved, prober.calls;
    ok := RunProbe(dir, state, ceiling, Some(model), prober);
    ghost var between := dir.saved.cost;
    if !ok {
      ProbesInTurn(prober.replies, c, s.cost, between, between, ceiling, model, false, false);
      return;
    }
    ok := RunProbe(dir, state, ceiling, None, prober);
    ProbesTwice(s, prober.replies, c, c + 1, prober.calls);
    ProbesInTurn(prober.replies, c, s.cost, between, dir.saved.cost, ceiling, model, true, ok);
    ok := ok && ceiling > 0 && state.cost < ceiling;
  }

  // ---- the uploads ----

  /** A live document version of the deployment. */
  datatype Row = Row(deployment: int, sourceRef: string, docId: int, versionId: int)

  /** What one upload can come to; a failed one may still have landed. */
  datatype Upload =
    | UploadFailed(docId: int, versionId: int, landed: bool)
    | Uploaded(docId: int, versionId: int, deployment: int, created: bool, hash: string)

  /** The remote deployment: its identity, its live documents, and whether its
      attestations and uploads succeed. */
  class Deployment {
    const id: int
    const attests: nat -> bool
    const outcomes: (nat, Document) -> Upload
    var live: set<Row>
    var asked: nat
    var uploads: nat

    constructor (id: int, live: set<Row>, attests: nat -> bool, outcomes: (nat, Document) -> Upload)
      ensures this.id == id && this.live == live && this.attests == attests && this.outcomes == outcomes
    {
      this.id, this.live, this.attests, this.outcomes := id, live, attests, outcomes;
      asked, uploads := 0, 0;
    }

    /** Whether the deployment could attest its exact live set. */
    method Attest() returns (valid: bool)
      modifies this`asked
      ensures valid == attests(old(asked)) && asked == old(asked) + 1
    {
      valid := attests(asked);
      asked := asked + 1;
    }

    method Ingest(d: Document) returns (outcome: Upload)
      modifies this`live, this`uploads
      ensures uploads == old(uploads) + 1 && outcome == outcomes(old(uploads), d)
      ensures live ==
        old(live) + if Landed(outcome) then {Row(id, d.sourceRef, outcome.docId, outcome.versionId)} else {}
    {
      outcome := outcomes(uploads, d);
      uploads := uploads + 1;
      if Landed(outcome) {
        live := live + {Row(id, d.sourceRef, outcome.docId, outcome.versionId)};
      }
    }
  }

  predicate Landed(outcome: Upload) {
    (outcome.UploadFailed? && outcome.landed) || (outcome.Uploaded? && outcome.created)
  }

  /** The upload of `d` is a new document of this deployment with its content. */
  predicate Accepted(outcome: Upload, deployment: int, d: Document) {
    outcome.Uploaded? && outcome.deployment == deployment && outcome.created && outcome.hash == d.hash
  }

  function RowOf(r: IngestRecord): Row {
    Row(r.deployment, r.sourceRef, r.docId, r.versionId)
  }

  /** What the checkpoint says the sample's deployment holds. */
  function RowsOf(ingests: map<string, IngestRecord>, sampleId: string): set<Row> {
    set k | k in ingests && ingests[k].sampleId == sampleId :: RowOf(ingests[k])
  }

  /** The live documents are exactly the checkpointed ones, all of them on
      this deployment. */
  ghost predicate ExactLive(live: set<Row>, deployment: int, ingests: map<string, IngestRecord>, sampleId: string) {
    && (DeploymentsOf(ingests, sampleId) == {} || DeploymentsOf(ingests, sampleId) == {deployment})
    && live == RowsOf(ingests, sampleId)
  }

  /** The live set is exact if and only if all of the sample's records name this
      deployment, and the live documents are theirs and no others. */
  lemma ExactLiveTells(live: set<Row>, deployment: int, ingests: map<string, IngestRecord>, sampleId: string)
    ensures ExactLive(live, deployment, ingests, sampleId) <==>
      && (forall k :: k in ingests && ingests[k].sampleId == sampleId ==>
            && ingests[k].deployment == deployment
            && Row(deployment, ingests[k].sourceRef, ingests[k].docId, ingests[k].versionId) in live)
      && (forall row :: row in live ==>
            exists k :: k in ingests && ingests[k].sampleId == sampleId
              && row == Row(deployment, ingests[k].sourceRef, ingests[k].docId, ingests[k].versionId))
  {
    var deployments := DeploymentsOf(ingests, sampleId);
    assert forall k :: k in ingests && ingests[k].sampleId == sampleId ==>
      ingests[k].deployment in deployments && RowOf(ingests[k]) in RowsOf(ingests, sampleId);
    if forall k :: k in ingests && ingests[k].sampleId == sampleId ==> ingests[k].deployment == deployment {
      assert deployments == {} || deployments == {deployment};
      assert forall row :: row in RowsOf(ingests, sampleId) ==>
        exists k :: k in ingests && ingests[k].sampleId == sampleId && row == RowOf(ingests[k]);
    }
  }

  /** The deployment attests that it holds exactly what the checkpoint says. */
  ghost predicate Exact(remote: Deployment, ingests: map<string, IngestRecord>, sampleId: string)
    reads remote
  {
    remote.attests(remote.asked) && ExactLive(remote.live, remote.id, ingests, sampleId)
  }

  method RequireExactLive(remote: Deployment, ingests: map<string, IngestRecord>, sampleId: string) returns (ok: bool)
    modifies remote`asked
    ensures ok <==> old(Exact(remote, ingests, sampleId))
    ensures remote.asked == old(remote.asked) + 1
  {
    var valid := remote.Attest();
    var deployments := DeploymentsOf(ingests, sampleId);
    ok := valid && (deployments == {} || deployments == {remote.id}) && remote.live == RowsOf(ingests, sampleId);
  }

  lemma RecordIsEnabled(p: Plan, s: State, d: Document, r: IngestRecord)
    requires p.Valid() && d in p.documents && d.sourceRef !in s.ingests
    requires r.sourceRef == d.sourceRef && MatchesDocument(r, d)
    requires DeploymentsOf(s.ingests, r.sampleId) == {} || DeploymentsOf(s.ingests, r.sampleId) == {r.deployment}
    ensures Enabled(p, s, Ingested(r))
  {
    forall k | k in s.ingests && s.ingests[k].sampleId == r.sampleId ensures s.ingests[k].deployment == r.deployment {
      assert s.ingests[k].deployment in DeploymentsOf(s.ingests, r.sampleId);
    }
  }

  lemma RowsGrow(ingests: map<string, IngestRecord>, r: IngestRecord)
    requires r.sourceRef !in ingests
    ensures RowsOf(ingests[r.sourceRef := r], r.sampleId) == RowsOf(ingests, r.sampleId) + {RowOf(r)}
  {
    var grown := ingests[r.sourceRef := r];
    forall k | k in ingests && ingests[k].sampleId == r.sampleId
      ensures RowOf(ingests[k]) in RowsOf(grown, r.sampleId)
    {
      assert grown[k] == ingests[k];
    }
    assert grown[r.sourceRef] == r;
  }

  lemma DeploymentsGrow(ingests: map<string, IngestRecord>, r: IngestRecord)
    requires r.sourceRef !in ingests
    requires DeploymentsOf(ingests, r.sampleId) == {} || DeploymentsOf(ingests, r.sampleId) == {r.deployment}
    ensures DeploymentsOf(ingests[r.sourceRef := r], r.sampleId) == {r.deployment}
  {
    var grown := ingests[r.sourceRef := r];
    forall k | k in grown && grown[k].sampleId == r.sampleId ensures grown[k].deployment == r.deployment {
      if k != r.sourceRef { assert ingests[k].deployment in DeploymentsOf(ingests, r.sampleId); }
    }
    assert grown[r.sourceRef] == r && r.deployment in DeploymentsOf(grown, r.sampleId);
  }

  /** Records one accepted upload. */
  method RecordIngest(dir: RunDirectory, state: RunState, d: Document, deployment: int, docId: int, versionId: int)
    requires dir.Valid() && state.Value() == dir.saved
    requires d in dir.plan.documents && d.sourceRef !in dir.saved.ingests
    requires DeploymentsOf(dir.saved.ingests, d.sampleId) == {}
      || DeploymentsOf(dir.saved.ingests, d.sampleId) == {deployment}
    modifies dir, state`ingests
    ensures dir.Valid() && dir.Saves() == old(dir.Saves()) + [dir.saved]
    ensures state.Value() == dir.saved == old(dir.saved).(ingests := dir.saved.ingests)
    ensures dir.saved.ingests.Keys == old(dir.saved.ingests.Keys) + {d.sourceRef}
    ensures dir.saved.ingests[d.sourceRef] ==
      IngestRecord(d.sampleId, d.sessionId, d.sourceRef, d.hash, deployment, docId, versionId)
    ensures RowsOf(dir.saved.ingests, d.sampleId)
         == RowsOf(old(dir.saved.ingests), d.sampleId) + {Row(deployment, d.sourceRef, docId, versionId)}
    ensures DeploymentsOf(dir.saved.ingests, d.sampleId) == {deployment}
  {
    var record := IngestRecord(d.sampleId, d.sessionId, d.sourceRef, d.hash, deployment, docId, versionId);
    DirectoryIsKept(dir.plan, dir.past, dir.saved);
    RecordIsEnabled(dir.plan, dir.saved, d, record);
    RowsGrow(state.ingests, record);
    DeploymentsGrow(state.ingests, record);
    state.ingests := state.ingests[d.sourceRef := record];
    dir.Save(state, Ingested(record));
  }

  /** The document's file is intact, and the deployment is exact. */
  ghost predicate MayUpload(ingests: map<string, IngestRecord>, d: Document, intact: bool, remote: Deployment)
    reads remote
  {
    intact && Exact(remote, ingests, d.sampleId)
  }

  /** Why a document is not recorded: its file changed, the last attestation
      failed, the deployment is not exact, or the last upload was not accepted. */
  ghost predicate Blocked(
      remote: Deployment, asked: nat, uploads: nat, d: Document, ingests: map<string, IngestRecord>, intact: bool)
    reads remote
  {
    || !intact
    || (remote.asked > asked && !remote.attests(remote.asked - 1))
    || !ExactLive(remote.live, remote.id, ingests, d.sampleId)
    || (remote.uploads > uploads && !Accepted(remote.outcomes(remote.uploads - 1, d), remote.id, d))
  }

  /** Uploads one outstanding document. The deployment must hold exactly what
      the checkpoint says before the upload; if it still does afterwards, the
      document is recorded, and otherwise nothing is. */
  method IngestOne(dir: RunDirectory, state: RunState, d: Document, intact: bool, remote: Deployment)
    returns (stop: Option<StageEnd>)
    requires dir.Valid() && state.Value() == dir.saved
    requires d in dir.plan.documents && d.sourceRef !in dir.saved.ingests
    modifies dir, state`ingests, remote
    ensures dir.Valid() && old(dir.Saves()) <= dir.Saves()
    ensures dir.saved == old(dir.saved).(ingests := dir.saved.ingests)
    ensures stop == None || stop == Some(GuardFired) || stop == Some(Broke)
    ensures remote.uploads ==
      old(remote.uploads) + if old(MayUpload(dir.saved.ingests, d, intact, remote)) then 1 else 0
    ensures remote.uploads > old(remote.uploads) ==>
      intact && old(remote.attests(remote.asked) && ExactLive(remote.live, remote.id, dir.saved.ingests, d.sampleId))
    ensures
      var outcome := remote.outcomes(old(remote.uploads), d);
      stop == None <==>
        && old(MayUpload(dir.saved.ingests, d, intact, remote))
        && outcome.Uploaded? && outcome.deployment == remote.id && outcome.created && outcome.hash == d.hash
    ensures stop == None ==>
      var outcome := remote.outcomes(old(remote.uploads), d);
      d.sourceRef in dir.saved.ingests && dir.saved.ingests[d.sourceRef] ==
        IngestRecord(d.sampleId, d.sessionId, d.sourceRef, d.hash, remote.id, outcome.docId, outcome.versionId)
    ensures stop == None ==>
      && state.Value() == dir.saved
      && dir.saved.ingests.Keys == old(dir.saved.ingests.Keys) + {d.sourceRef}
      && ExactLive(remote.live, remote.id, dir.saved.ingests, d.sampleId)
    ensures stop.Some? ==> dir.saved == old(dir.saved)
    ensures stop.Some? ==> Blocked(remote, old(remote.asked), old(remote.uploads), d, dir.saved.ingests, intact)
    ensures remote.asked >= old(remote.asked)
  {
    if !intact {
      return Some(Broke);
    }
    var attested := RequireExactLive(remote, state.ingests, d.sampleId);
    if !attested {
      return Some(GuardFired);
    }
    var outcome := remote.Ingest(d);
    if outcome.UploadFailed? {
      return Some(Broke);
    }
    if outcome.deployment != remote.id || !outcome.created {
      return Some(GuardFired);
    }
    if outcome.hash != d.hash {
      return Some(Broke);
    }
    RecordIngest(dir, state, d, outcome.deployment, outcome.docId, outcome.versionId);
    stop := None;
  }

  ghost predicate Outstanding(documents: seq<Document>, ingests: map<string, IngestRecord>) {
    exists d :: d in documents && d.sourceRef !in ingests
  }

  /** The prepared documents of one sample, in order. */
  function SampleDocuments(documents: seq<Document>, sampleId: string): seq<Document> {
    Filter(documents, (d: Document) => d.sampleId == sampleId)
  }

  lemma SampleDocumentsAre(documents: seq<Document>, sampleId: string)
    ensures forall d :: d in SampleDocuments(documents, sampleId) <==> d in documents && d.sampleId == sampleId
  {
    FilterMembers(documents, (d: Document) => d.sampleId == sampleId);
  }

  /** A stored ingest never disagrees with its document on a directory that
      only these stages wrote. */
  lemma StoredHashMatches(p: Plan, past: seq<State>, s: State, d: Document)
    requires past + [s] in Histories(p) && d in p.documents && d.sourceRef in s.ingests
    ensures s.ingests[d.sourceRef].hash == d.hash
  {
    DirectoryIsKept(p, past, s);
  }

  /** The deployment attests whenever it is asked, and takes every one of
      these documents as new. */
  ghost predicate Faithful(remote: Deployment, documents: seq<Document>) {
    && (forall k :: remote.attests(k))
    && forall n, d :: d in documents ==> Accepted(remote.outcomes(n, d), remote.id, d)
  }

  /** A faithful deployment that holds exactly what the checkpoint says, and
      an intact file for each outstanding document. */
  ghost predicate SureToIngest(
      remote: Deployment, documents: seq<Document>, ingests: map<string, IngestRecord>, sampleId: string,
      intact: set<string>)
    reads remote
  {
    && Faithful(remote, documents)
    && (forall d :: d in documents && d.sourceRef !in ingests ==> d.sourceRef in intact)
    && (Outstanding(documents, ingests) ==> ExactLive(remote.live, remote.id, ingests, sampleId))
  }

  /** Some document is outstanding and blocked. */
  ghost predicate SomeBlocked(
      remote: Deployment, asked: nat, uploads: nat, documents: seq<Document>, ingests: map<string, IngestRecord>,
      intact: set<string>)
    reads remote
  {
    exists d :: d in documents && d.sourceRef !in ingests
      && Blocked(remote, asked, uploads, d, ingests, d.sourceRef in intact)
  }

  lemma BlockedLonger(
      remote: Deployment, asked: nat, later: nat, uploads: nat, documents: seq<Document>,
      ingests: map<string, IngestRecord>, intact: set<string>)
    requires asked <= later && SomeBlocked(remote, later, uploads, documents, ingests, intact)
    ensures SomeBlocked(remote, asked, uploads, documents, ingests, intact)
  {
    var d :| d in documents && d.sourceRef !in ingests
      && Blocked(remote, later, uploads, d, ingests, d.sourceRef in intact);
    assert Blocked(remote, asked, uploads, d, ingests, d.sourceRef in intact);
  }

  ghost predicate RecordedUpTo(documents: seq<Document>, i: nat, keys: set<string>)
    requires i <= |documents|
  {
    forall k :: 0 <= k < i ==> documents[k].sourceRef in keys
  }

  lemma RecordedOneMore(documents: seq<Document>, i: nat, keys: set<string>)
    requires i < |documents| && RecordedUpTo(documents, i, keys)
    ensures RecordedUpTo(documents, i + 1, keys + {documents[i].sourceRef})
    ensures documents[i].sourceRef in keys ==> keys + {documents[i].sourceRef} == keys
  {
  }

  /** Uploads the outstanding documents in order, recording each before the
      next. `intact` says whose prepared file still has its hash. */
  method IngestAll(
      dir: RunDirectory, state: RunState, sampleId: string, documents: seq<Document>, intact: set<string>,
      remote: Deployment)
    returns (end: StageEnd)
    requires dir.Valid() && state.Value() == dir.saved
    requires forall d :: d in documents ==> d in dir.plan.documents && d.sampleId == sampleId
    modifies dir, state`ingests, remote
    ensures dir.Valid() && old(dir.Saves()) <= dir.Saves()
    ensures dir.saved == old(dir.saved).(ingests := dir.saved.ingests)
    ensures end == Completed || end == GuardFired || end == Broke
    ensures end.Completed? ==> forall d :: d in documents ==> d.sourceRef in dir.saved.ingests
    ensures remote.uploads > old(remote.uploads) ==> old(ExactLive(remote.live, remote.id, dir.saved.ingests, sampleId))
    ensures end.Completed? && remote.uploads > old(remote.uploads) ==>
      ExactLive(remote.live, remote.id, dir.saved.ingests, sampleId)
    ensures remote.uploads >= old(remote.uploads)
    ensures remote.uploads > old(remote.uploads) ==> Outstanding(documents, old(dir.saved.ingests))
    ensures old(SureToIngest(remote, documents, dir.saved.ingests, sampleId, intact)) ==> end.Completed?
    ensures end.Completed? ||
      SomeBlocked(remote, old(remote.asked), old(remote.uploads), documents, dir.saved.ingests, intact)
  {
    ghost var before, live, uploads := dir.saved.ingests, remote.live, remote.uploads;
    for i := 0 to |documents|
      invariant dir.Valid() && old(dir.Saves()) <= dir.Saves()
      invariant state.Value() == dir.saved && dir.saved == old(dir.saved).(ingests := dir.saved.ingests)
      invariant RecordedUpTo(documents, i, dir.saved.ingests.Keys)
      invariant remote.uploads >= uploads && remote.asked >= old(remote.asked)
      invariant remote.uploads == uploads ==> remote.live == live && dir.saved.ingests == before
      invariant remote.uploads > uploads ==>
        && ExactLive(live, remote.id, before, sampleId)
        && ExactLive(remote.live, remote.id, dir.saved.ingests, sampleId)
        && Outstanding(documents, before)
      invariant before.Keys <= dir.saved.ingests.Keys
    {
      var d := documents[i];
      RecordedOneMore(documents, i, dir.saved.ingests.Keys);
      if d.sourceRef in state.ingests {
        StoredHashMatches(dir.plan, dir.past, dir.saved, d);
        if state.ingests[d.sourceRef].hash != d.hash {
          assert false;
          return Broke;
        }
        continue;
      }
      var stop := IngestOne(dir, state, d, d.sourceRef in intact, remote);
      if stop.Some? {
        return stop.value;
      }
    }
    end := Completed;
  }

  /** What must hold before any upload when documents are outstanding: a
      current build, an exact live set, and two paid probes. */
  method PrepareIngest(
      dir: RunDirectory, state: RunState, sampleId: string, current: bool, ceiling: int, model: string,
      prober: Prober, remote: Deployment)
    returns (stop: Option<StageEnd>)
    requires dir.Valid() && state.Value() == dir.saved
    modifies dir, state`preflightUsages, state`cost, prober, remote`asked
    ensures dir.Valid() && old(dir.Saves()) <= dir.Saves()
    ensures state.Value() == dir.saved
    ensures old(prober.calls) <= prober.calls <= old(prober.calls) + 2
    ensures dir.saved == Probes(old(dir.saved), ProbeUsages(prober.replies, old(prober.calls), prober.calls))
    ensures dir.saved.ingests == old(dir.saved.ingests)
    ensures stop == None || stop == Some(Refused) || stop == Some(GuardFired)
    ensures stop != Some(Refused) <==> current && old(Exact(remote, dir.saved.ingests, sampleId))
    ensures stop == None <==>
      && stop != Some(Refused)
      && ProbesPass(prober.replies, old(prober.calls), old(dir.saved.cost), ceiling, model)
    ensures stop == None ==> prober.calls == old(prober.calls) + 2
    ensures remote.asked >= old(remote.asked)
  {
    NoProbe(dir.saved);
    assert ProbeUsages(prober.replies, prober.calls, prober.calls) == [];
    if !current {
      return Some(Refused);
    }
    var attested := RequireExactLive(remote, state.ingests, sampleId);
    if !attested {
      return Some(Refused);
    }
    var ok := Preflight(dir, state, ceiling, model, prober);
    stop := if ok then None else Some(GuardFired);
  }

  /** Prepares the upload, if a document is outstanding, and uploads. */
  method IngestDocuments(
      dir: RunDirectory, state: RunState, sampleId: string, documents: seq<Document>, current: bool, ceiling: int,
      model: string, intact: set<string>, prober: Prober, remote: Deployment)
    returns (end: StageEnd)
    requires dir.Valid() && state.Value() == dir.saved
    requires forall d :: d in documents ==> d in dir.plan.documents && d.sampleId == sampleId
    modifies dir, state, prober, remote
    ensures dir.Valid() && old(dir.Saves()) <= dir.Saves()
    ensures old(prober.calls) <= prober.calls <= old(prober.calls) + 2
    ensures dir.saved ==
      Probes(old(dir.saved), ProbeUsages(prober.replies, old(prober.calls), prober.calls))
      .(ingests := dir.saved.ingests)
    ensures end.Completed? ==> forall d :: d in documents ==> d.sourceRef in dir.saved.ingests
    ensures remote.uploads > old(remote.uploads) ==> old(ExactLive(remote.live, remote.id, dir.saved.ingests, sampleId))
    ensures end.Completed? && remote.uploads > old(remote.uploads) ==>
      ExactLive(remote.live, remote.id, dir.saved.ingests, sampleId)
    ensures !Outstanding(documents, old(dir.saved.ingests)) ==>
      prober.calls == old(prober.calls) && remote.uploads == old(remote.uploads)
    ensures !end.Refused? <==>
      old(Outstanding(documents, dir.saved.ingests) ==> current && Exact(remote, dir.saved.ingests, sampleId))
    ensures
      && old(SureToIngest(remote, documents, dir.saved.ingests, sampleId, intact))
      && ProbesPass(prober.replies, old(prober.calls), old(dir.saved.cost), ceiling, model)
      ==> end.Refused? || end.Completed?
    ensures
      || end.Completed? || end.Refused?
      || (end.GuardFired? && !ProbesPass(prober.replies, old(prober.calls), old(dir.saved.cost), ceiling, model))
      || SomeBlocked(remote, old(remote.asked), old(remote.uploads), documents, dir.saved.ingests, intact)
  {
    ghost var sure := SureToIngest(remote, documents, dir.saved.ingests, sampleId, intact);
    NoProbe(dir.saved);
    assert ProbeUsages(prober.replies, prober.calls, prober.calls) == [];
    if exists d :: d in documents && d.sourceRef !in state.ingests {
      var stop := PrepareIngest(dir, state, sampleId, current, ceiling, model, prober, remote);
      if stop.Some? {
        return stop.value;
      }
    }
    ghost var later := remote.asked;
    assert sure ==> SureToIngest(remote, documents, dir.saved.ingests, sampleId, intact);
    end := IngestAll(dir, state, sampleId, documents, intact, remote);
    if !end.Completed? {
      BlockedLonger(remote, old(remote.asked), later, old(remote.uploads), documents, dir.saved.ingests, intact);
    }
  }

  /** With all of a sample's documents recorded, its records name one deployment. */
  lemma IngestedTogether(p: Plan, past: seq<State>, s: State, sampleId: string)
    requires past + [s] in Histories(p)
    requires forall d :: d in p.documents && d.sampleId == sampleId ==> d.sourceRef in s.ingests
    ensures (exists d :: d in p.documents && d.sampleId == sampleId) ==> SampleIngested(p, s, sampleId)
  {
    DirectoryIsKept(p, past, s);
    if d :| d in p.documents && d.sampleId == sampleId {
      var one := s.ingests[d.sourceRef];
      assert p.documentMap[d.sourceRef] == d && one.sampleId == sampleId;
      forall k | k in s.ingests && s.ingests[k].sampleId == sampleId ensures s.ingests[k].deployment == one.deployment {
      }
      assert one.deployment in DeploymentsOf(s.ingests, sampleId);
      assert DeploymentsOf(s.ingests, sampleId) == {one.deployment};
    }
  }

  /** What the ingest stage demands before it uploads: the remote guards, a
      limit that covers the sample's documents, and, when one is outstanding, a
      current build and an exact live set. */
  ghost predicate MayIngestSample(
      p: Plan, s: State, sampleId: string, admitted: bool, current: bool, maxDocuments: int, remote: Deployment)
    reads remote
  {
    var documents := SampleDocuments(p.documents, sampleId);
    && admitted && |documents| <= maxDocuments
    && (Outstanding(documents, s.ingests) ==> current && Exact(remote, s.ingests, sampleId))
  }

  /** What an ingest stage is not refused for, in elementary terms: the sample is
      admitted within the document limit, and if one of its documents is not recorded
      yet, the build is current and the deployment attests an exact live set. */
  lemma IngestAdmissionTells(
      p: Plan, s: State, sampleId: string, admitted: bool, current: bool, maxDocuments: int, remote: Deployment)
    ensures MayIngestSample(p, s, sampleId, admitted, current, maxDocuments, remote) <==>
      && admitted && |SampleDocuments(p.documents, sampleId)| <= maxDocuments
      && ((exists d :: d in p.documents && d.sampleId == sampleId && d.sourceRef !in s.ingests) ==>
            && current && remote.attests(remote.asked)
            && ExactLive(remote.live, remote.id, s.ingests, sampleId))
  {
    SampleDocumentsAre(p.documents, sampleId);
  }

  /** Ingests one sample. `admitted` stands for the remote guards, `current`
      for the checks on the build that will process the documents. Every probe
      is paid for in the checkpoint the moment it returns. A stage that is not
      refused completes, if its probes pass and the deployment is faithful. */
  method IngestSample(
      dir: RunDirectory, sampleId: string, admitted: bool, current: bool, maxDocuments: int, ceiling: int,
      model: string, intact: set<string>, prober: Prober, remote: Deployment)
    returns (end: StageEnd)
    requires dir.Valid()
    modifies dir, prober, remote
    ensures dir.Valid() && old(dir.Saves()) <= dir.Saves()
    ensures old(prober.calls) <= prober.calls <= old(prober.calls) + 2
    ensures dir.saved ==
      Probes(old(dir.saved), ProbeUsages(prober.replies, old(prober.calls), prober.calls))
      .(ingests := dir.saved.ingests)
    ensures end.Completed? ==>
      forall d :: d in dir.plan.documents && d.sampleId == sampleId ==> d.sourceRef in dir.saved.ingests
    ensures end.Completed? && (exists d :: d in dir.plan.documents && d.sampleId == sampleId) ==>
      SampleIngested(dir.plan, dir.saved, sampleId)
    // A deployment that does not hold exactly the checkpointed documents gets no upload.
    ensures remote.uploads > old(remote.uploads) ==> old(ExactLive(remote.live, remote.id, dir.saved.ingests, sampleId))
    ensures end.Completed? && remote.uploads > old(remote.uploads) ==>
      ExactLive(remote.live, remote.id, dir.saved.ingests, sampleId)
    // With nothing outstanding, nothing is called and nothing changes.
    ensures !Outstanding(SampleDocuments(dir.plan.documents, sampleId), old(dir.saved.ingests)) ==>
      prober.calls == old(prober.calls) && remote.uploads == old(remote.uploads)
    ensures !end.Refused? <==>
      old(MayIngestSample(dir.plan, dir.saved, sampleId, admitted, current, maxDocuments, remote))
    ensures
      && old(SureToIngest(
           remote, SampleDocuments(dir.plan.documents, sampleId), dir.saved.ingests, sampleId, intact))
      && ProbesPass(prober.replies, old(prober.calls), old(dir.saved.cost), ceiling, model)
      ==> end.Refused? || end.Completed?
    ensures
      || end.Completed? || end.Refused?
      || (end.GuardFired? && !ProbesPass(prober.replies, old(prober.calls), old(dir.saved.cost), ceiling, model))
      || SomeBlocked(
           remote, old(remote.asked), old(remote.uploads), SampleDocuments(dir.plan.documents, sampleId),
           dir.saved.ingests, intact)
  {
    NoProbe(dir.saved);
    assert ProbeUsages(prober.replies, prober.calls, prober.calls) == [];
    var state := Load(dir);
    var documents := SampleDocuments(dir.plan.documents, sampleId);
    SampleDocumentsAre(dir.plan.documents, sampleId);
    if !admitted || maxDocuments < |documents| {
      return Refused;
    }
    end := IngestDocuments(dir, state, sampleId, documents, current, ceiling, model, intact, prober, remote);
    if end.Completed? {
      IngestedTogether(dir.plan, dir.past, dir.saved, sampleId);
    }
  }
}
