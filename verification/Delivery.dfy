// The delivery ledger: preparation of immutable snapshots and owner decisions
// (src/delivery/prepare.js:32-222, src/delivery/decisions.js:20-94).
module Delivery {
  import opened Text
  import opened Records
  import opened Lineage

  // ---- Preparation, as a function of the project and of what the packaging steps produced ----

  // The in-memory ledger after the call; on failure it is what the caller would save if it saved at all.
  datatype Prepared = Prepared(deliveries: seq<Delivery>, ok: bool)

  predicate Reusable(d: Delivery, key: DeliveryKey) {
    d.key == key && (d.status == Ready || d.status == Preparing)
  }

  function FindReusable(ds: seq<Delivery>, key: DeliveryKey): (r: Option<nat>)
    ensures r.Some? ==> r.value < |ds| && Reusable(ds[r.value], key)
    ensures r.Some? ==> forall j :: 0 <= j < r.value ==> !Reusable(ds[j], key)
    ensures r.None? ==> forall j :: 0 <= j < |ds| ==> !Reusable(ds[j], key)
  {
    if ds == [] then None
    else if Reusable(ds[0], key) then Some(0)
    else match FindReusable(ds[1..], key) case Some(i) => Some(i + 1) case None => None
  }

  function MaxVersion(ds: seq<Delivery>): (m: nat)
    ensures forall d :: d in ds ==> d.version <= m
  {
    if ds == [] then 0
    else
      var rest := MaxVersion(ds[1..]);
      if ds[0].version > rest then ds[0].version else rest
  }

  function NewDelivery(p: Project): Delivery {
    Delivery(MaxVersion(p.deliveries) + 1, DeliveryKeyOf(p), FinalCheckpoint(p), EvidenceSetOf(p), Preparing, false, None)
  }

  predicate HasManifest(d: Delivery) {
    d.package.Some? && d.package.value.manifestHash
  }

  // validatePreparedPackage (prepare.js:224-234)
  predicate PackageValid(package: Package) {
    && package.archive && package.manifestHash && package.ownerReport && package.verificationReport
    && (package.sourceArtifact ==> package.sourceHashMatches)
  }

  function Demoted(d: Delivery): Delivery {
    if d.current then d.(current := false, status := if d.status == Ready then Superseded else d.status) else d
  }

  function Published(ds: seq<Delivery>, index: nat, package: Package): (r: seq<Delivery>)
    requires index < |ds|
    ensures |r| == |ds|
  {
    seq(|ds|, i requires 0 <= i < |ds| =>
      if i == index then ds[i].(status := Ready, current := true, package := Some(package)) else Demoted(ds[i]))
  }

  // The slot a preparation works on: a READY delivery of the same evidence, or the ledger with the
  // PREPARING entry to publish.
  datatype Slot = Reuse(index: nat) | Publish(deliveries: seq<Delivery>, index: nat)

  function SlotFor(p: Project): (r: Slot)
    ensures r.Reuse? ==> r.index < |p.deliveries|
    ensures r.Publish? ==> r.index < |r.deliveries|
  {
    var existing := FindReusable(p.deliveries, DeliveryKeyOf(p));
    if existing.Some? && p.deliveries[existing.value].status == Ready && HasManifest(p.deliveries[existing.value])
    then Reuse(existing.value)
    else if existing.Some? && p.deliveries[existing.value].status == Preparing
    then Publish(p.deliveries, existing.value)
    else Publish(p.deliveries + [NewDelivery(p)], |p.deliveries|)
  }

  // What the call leaves behind once the lineage was accepted. `packaged` is None when a packaging step throws.
  function Fill(ds: seq<Delivery>, slot: Slot, packaged: Option<Package>): Prepared
    requires slot.Reuse? ==> slot.index < |ds|
    requires slot.Publish? ==> slot.index < |slot.deliveries|
  {
    match slot
    case Reuse(i) => Prepared(ds[i := ds[i].(current := true)], true)
    case Publish(staged, i) =>
      if packaged.None? || !PackageValid(packaged.value) then Prepared(staged, false)
      else Prepared(Published(staged, i, packaged.value), true)
  }

  // prepareDeliverySnapshot
  ghost function Prepare(p: Project, packaged: Option<Package>): Prepared {
    if LineageOk(p) then Fill(p.deliveries, SlotFor(p), packaged) else Prepared(p.deliveries, false)
  }

  // ---- Owner decisions ----

  datatype DecisionError = NoDelivery | StaleDelivery | DecisionConflict | InvalidFeedback
  datatype Decided = Decided(deliveries: seq<Delivery>, ownerReviews: seq<OwnerReview>, error: Option<DecisionError>)

  predicate HasReview(reviews: seq<OwnerReview>, version: nat) {
    exists r :: r in reviews && r.deliveryVersion == version
  }

  function Decide(p: Project, decision: OwnerDecision, feedback: string): Decided {
    var index := CurrentIndex(p.deliveries);
    if index.None? then Decided(p.deliveries, p.ownerReviews, Some(NoDelivery))
    else
      var d := p.deliveries[index.value];
      if d.status != Ready || !DeliveryIsCurrent(p, d) then
        Decided(p.deliveries[index.value := d.(status := if d.status == Approved then Approved else Stale)],
                p.ownerReviews, Some(StaleDelivery))
      else if HasReview(p.ownerReviews, d.version) then
        Decided(p.deliveries, p.ownerReviews, Some(DecisionConflict))
      else if decision == OwnerRequestsChanges && Trim(feedback) == "" then
        Decided(p.deliveries, p.ownerReviews, Some(InvalidFeedback))
      else
        Decided(p.deliveries[index.value :=
                  if decision == OwnerApproves then d.(status := Approved, current := true)
                  else d.(status := Superseded, current := false)],
                p.ownerReviews + [OwnerReview(d.version, decision)], None)
  }

  // ---- The ledger invariant ----

  predicate VersionsIncrease(ds: seq<Delivery>) {
    forall i, j :: 0 <= i < j < |ds| ==> ds[i].version < ds[j].version
  }

  predicate AtMostOneCurrent(ds: seq<Delivery>) {
    forall i, j :: 0 <= i < j < |ds| ==> !(ds[i].current && ds[j].current)
  }

  predicate ReadyIsSound(d: Delivery) {
    && d.key == DeliveryKey(d.checkpointSha, d.evidenceSet)
    && (d.status == Ready ==> d.current && d.package.Some? && PackageValid(d.package.value))
  }

  predicate ReviewsAreFinal(ds: seq<Delivery>, reviews: seq<OwnerReview>) {
    && (forall i, j :: 0 <= i < j < |reviews| ==> reviews[i].deliveryVersion != reviews[j].deliveryVersion)
    && (forall r, d :: r in reviews && d in ds && d.version == r.deliveryVersion ==> d.status !in {Preparing, Ready})
    && (forall r :: r in reviews ==> r.deliveryVersion <= MaxVersion(ds))
  }

  predicate LedgerOk(ds: seq<Delivery>, reviews: seq<OwnerReview>) {
    && VersionsIncrease(ds)
    && AtMostOneCurrent(ds)
    && (forall d :: d in ds ==> ReadyIsSound(d))
    && ReviewsAreFinal(ds, reviews)
  }

  // What may happen to a recorded delivery: it keeps its identity, and from when it is prepared its package; it never
  // goes back to PREPARING, and once approved, superseded or stale is never offered again: an approved one stays so.
  predicate Ages(before: Delivery, after: Delivery) {
    && after.version == before.version && after.key == before.key
    && after.checkpointSha == before.checkpointSha && after.evidenceSet == before.evidenceSet
    && (before.status != Preparing ==> after.status != Preparing && after.package == before.package)
    && (before.status == Approved ==> after.status == Approved)
    && (before.status == Superseded ==> after.status in {Superseded, Stale})
    && (before.status == Stale ==> after.status == Stale)
  }

  predicate Evolves(before: seq<Delivery>, after: seq<Delivery>) {
    |before| <= |after| && forall i :: 0 <= i < |before| ==> Ages(before[i], after[i])
  }

  lemma {:induction false} MaxVersionIsLast(ds: seq<Delivery>)
    requires VersionsIncrease(ds) && ds != []
    ensures MaxVersion(ds) == ds[|ds| - 1].version
  {
    if |ds| > 1 {
      MaxVersionIsLast(ds[1..]);
    }
  }

  lemma {:induction false} AppendKeepsLedger(ds: seq<Delivery>, reviews: seq<OwnerReview>, d: Delivery)
    requires LedgerOk(ds, reviews)
    requires d.version == MaxVersion(ds) + 1 && d.status == Preparing && !d.current && ReadyIsSound(d)
    ensures LedgerOk(ds + [d], reviews)
  {
    hide ReadyIsSound, PackageValid;
    var after := ds + [d];
    assert forall x :: x in after <==> x in ds || x == d;
    assert forall i :: 0 <= i < |ds| ==> ds[i] in ds;
    assert VersionsIncrease(after);
    MaxVersionIsLast(after);
  }

  // Changing entries in place keeps versions, so it keeps everything that depends on versions only.
  lemma {:induction false} SameVersions(ds: seq<Delivery>, after: seq<Delivery>)
    requires |ds| == |after| && forall i :: 0 <= i < |ds| ==> ds[i].version == after[i].version
    requires VersionsIncrease(ds)
    ensures VersionsIncrease(after) && MaxVersion(after) == MaxVersion(ds)
  {
    if ds != [] {
      MaxVersionIsLast(ds);
      MaxVersionIsLast(after);
    }
  }

  lemma {:induction false} ReviewsStayFinal(ds: seq<Delivery>, after: seq<Delivery>, reviews: seq<OwnerReview>, except: nat)
    requires ReviewsAreFinal(ds, reviews) && VersionsIncrease(ds)
    requires |ds| == |after| && forall i :: 0 <= i < |ds| ==> ds[i].version == after[i].version
    requires forall i :: 0 <= i < |ds| && i != except ==> Ages(ds[i], after[i])
    requires except < |ds| ==> Ages(ds[except], after[except]) || ds[except].status in {Preparing, Ready}
    ensures ReviewsAreFinal(after, reviews)
  {
    SameVersions(ds, after);
    forall r, d | r in reviews && d in after && d.version == r.deliveryVersion
      ensures d.status !in {Preparing, Ready}
    {
      var i :| 0 <= i < |after| && after[i] == d;
      DecidedStaysDecided(ds, reviews, r, i, d);
    }
  }

  lemma {:induction false} DecidedStaysDecided(ds: seq<Delivery>, reviews: seq<OwnerReview>, r: OwnerReview, i: nat, d: Delivery)
    requires i < |ds| && r in reviews && ds[i].version == d.version == r.deliveryVersion
    requires forall x, e :: x in reviews && e in ds && e.version == x.deliveryVersion ==> e.status !in {Preparing, Ready}
    requires Ages(ds[i], d) || ds[i].status in {Preparing, Ready}
    ensures d.status !in {Preparing, Ready}
  {
    assert ds[i] in ds;
  }

  // Publishing demotes every other entry, so the published one is the only current and the only READY one.
  lemma {:induction false} PublishedEntry(ds: seq<Delivery>, index: nat, package: Package, i: nat)
    requires index < |ds| && ds[index].status == Preparing && PackageValid(package) && i < |ds| && ReadyIsSound(ds[i])
    ensures var d := Published(ds, index, package)[i];
            Ages(ds[i], d) && ReadyIsSound(d) && (d.current <==> i == index)
  {
  }

  lemma {:induction false} PublishKeepsLedger(ds: seq<Delivery>, reviews: seq<OwnerReview>, index: nat, package: Package)
    requires LedgerOk(ds, reviews) && index < |ds| && ds[index].status == Preparing && PackageValid(package)
    ensures LedgerOk(Published(ds, index, package), reviews)
    ensures Evolves(ds, Published(ds, index, package))
    ensures CurrentIndex(Published(ds, index, package)) == Some(index)
  {
    var after := Published(ds, index, package);
    forall i | 0 <= i < |ds| ensures Ages(ds[i], after[i]) && ReadyIsSound(after[i]) && (after[i].current <==> i == index) {
      PublishedEntry(ds, index, package, i);
    }
    LedgerFromParts(ds, after, reviews);
    assert FirstCurrent(after) == Some(index) by {
      assert after[index].current;
    }
  }

  // A rewrite that ages every entry, keeps it sound and leaves at most one current keeps the ledger.
  lemma {:induction false} LedgerFromParts(ds: seq<Delivery>, after: seq<Delivery>, reviews: seq<OwnerReview>)
    requires LedgerOk(ds, reviews) && |after| == |ds| && AtMostOneCurrent(after)
    requires forall i :: 0 <= i < |ds| ==> Ages(ds[i], after[i]) && ReadyIsSound(after[i])
    ensures LedgerOk(after, reviews)
  {
    SameVersions(ds, after);
    ReviewsStayFinal(ds, after, reviews, |ds|);
  }

  // READY implies current, so the branch that reuses a READY delivery changes nothing and need not clear
  // any other one; otherwise the slot is the first entry for this evidence and is still PREPARING.
  lemma {:induction false} SlotIsSound(p: Project)
    requires LedgerOk(p.deliveries, p.ownerReviews)
    ensures var slot := SlotFor(p);
            match slot
            case Reuse(i) =>
              var d := p.deliveries[i];
              d.status == Ready && d.current && d.key == DeliveryKeyOf(p) && d.(current := true) == d
            case Publish(ds, i) =>
              && LedgerOk(ds, p.ownerReviews) && Evolves(p.deliveries, ds)
              && ds[i].status == Preparing && ds[i].key == DeliveryKeyOf(p)
              && forall j :: 0 <= j < i ==> !Reusable(ds[j], DeliveryKeyOf(p))
  {
    var existing := FindReusable(p.deliveries, DeliveryKeyOf(p));
    if existing.Some? {
      assert p.deliveries[existing.value] in p.deliveries;
      assert ReadyIsSound(p.deliveries[existing.value]);
    }
    if SlotFor(p).Publish? {
      AppendKeepsLedger(p.deliveries, p.ownerReviews, NewDelivery(p));
    }
  }

  lemma {:induction false} FillKeepsLedger(p: Project, packaged: Option<Package>)
    requires LedgerOk(p.deliveries, p.ownerReviews)
    ensures var r := Fill(p.deliveries, SlotFor(p), packaged);
            LedgerOk(r.deliveries, p.ownerReviews) && Evolves(p.deliveries, r.deliveries)
  {
    SlotIsSound(p);
    var slot := SlotFor(p);
    if slot.Reuse? {
      assert p.deliveries[slot.index := p.deliveries[slot.index]] == p.deliveries;
    } else if packaged.Some? && PackageValid(packaged.value) {
      PublishKeepsLedger(slot.deliveries, p.ownerReviews, slot.index, packaged.value);
      EvolvesTransitively(p.deliveries, slot.deliveries, Published(slot.deliveries, slot.index, packaged.value));
    }
  }

  lemma {:induction false} EvolvesTransitively(a: seq<Delivery>, b: seq<Delivery>, c: seq<Delivery>)
    requires Evolves(a, b) && Evolves(b, c)
    ensures Evolves(a, c)
  {
    forall i | 0 <= i < |a| ensures Ages(a[i], c[i]) {
      assert Ages(a[i], b[i]) && Ages(b[i], c[i]);
    }
  }

  // Preparing a delivery keeps the ledger sound, whether it succeeds or throws.
  lemma {:induction false} PrepareKeepsLedger(p: Project, packaged: Option<Package>)
    requires LedgerOk(p.deliveries, p.ownerReviews)
    ensures var r := Prepare(p, packaged);
            LedgerOk(r.deliveries, p.ownerReviews) && Evolves(p.deliveries, r.deliveries)
  {
    FillKeepsLedger(p, packaged);
  }

  // After a successful preparation the current delivery is READY, is the first one for this evidence, and
  // carries the project's final checkpoint and evidence set.
  lemma {:induction false} PreparedDeliveryIsCurrent(p: Project, packaged: Option<Package>)
    requires LedgerOk(p.deliveries, p.ownerReviews) && Prepare(p, packaged).ok
    ensures var ds := Prepare(p, packaged).deliveries;
            && FindReusable(ds, DeliveryKeyOf(p)).Some?
            && FindReusable(ds, DeliveryKeyOf(p)) == CurrentIndex(ds)
            && var d := ds[CurrentIndex(ds).value];
               && d.status == Ready && d.current && d.key == DeliveryKeyOf(p)
               && d.checkpointSha == FinalCheckpoint(p) && d.evidenceSet == EvidenceSetOf(p)
               && d.package.Some? && PackageValid(d.package.value)
  {
    hide LineageOk, EvidenceSetOf, FinalCheckpoint, PackageValid, VersionsIncrease, ReviewsAreFinal;
    SlotIsSound(p);
    match SlotFor(p) {
      case Reuse(i) =>
        assert p.deliveries[i] in p.deliveries && ReadyIsSound(p.deliveries[i]);
        SoleCurrent(p.deliveries, i);
        assert p.deliveries[i := p.deliveries[i]] == p.deliveries;
      case Publish(before, i) =>
        PublishKeepsLedger(before, p.ownerReviews, i, packaged.value);
        var ds := Published(before, i, packaged.value);
        assert ReadyIsSound(ds[i]) by { assert ds[i] in ds; }
        assert forall j :: 0 <= j < i ==> !Reusable(ds[j], DeliveryKeyOf(p));
    }
  }

  lemma {:induction false} SoleCurrent(ds: seq<Delivery>, i: nat)
    requires AtMostOneCurrent(ds) && i < |ds| && ds[i].current
    ensures CurrentIndex(ds) == Some(i)
  {
  }

  // The delivery of a successful preparation never turns a good lineage into a bad one.
  lemma {:induction false} PreparedLineageStaysOk(p: Project, packaged: Option<Package>)
    requires LedgerOk(p.deliveries, p.ownerReviews) && Prepare(p, packaged).ok
    ensures LineageOk(p.(deliveries := Prepare(p, packaged).deliveries))
  {
    PreparedDeliveryIsCurrent(p, packaged);
    LineageSurvivesDelivery(p, Prepare(p, packaged).deliveries);
  }

  lemma {:induction false} LineageSurvivesDelivery(p: Project, ds: seq<Delivery>)
    requires LineageOk(p)
    requires CurrentIndex(ds).Some? && ds[CurrentIndex(ds).value].checkpointSha == FinalCheckpoint(p)
    ensures LineageOk(p.(deliveries := ds))
  {
    var after := p.(deliveries := ds);
    assert FinalCheckpoint(after) == FinalCheckpoint(p) && RunIteration(after) == RunIteration(p);
    MockPolicyIgnoresDeliveries(p, ds);
    forall reason ensures !LineageRejects(after, FinalCheckpoint(after), reason) {
      assert !LineageRejects(p, FinalCheckpoint(p), reason);
      assert !LineageRejects(p, FinalCheckpoint(p), MockCheckpointUsed);
      if reason != MockEvidenceUsed && reason != MockCheckpointUsed {
        OtherReasonsIgnoreDeliveries(p, ds, FinalCheckpoint(p), reason);
      }
    }
  }

  lemma {:induction false} OtherReasonsIgnoreDeliveries(p: Project, ds: seq<Delivery>, checkpoint: string, reason: LineageReason)
    requires reason != MockEvidenceUsed && reason != MockCheckpointUsed
    ensures LineageRejects(p.(deliveries := ds), checkpoint, reason) == LineageRejects(p, checkpoint, reason)
  {
  }

  lemma {:induction false} MockPolicyIgnoresDeliveries(p: Project, ds: seq<Delivery>)
    requires CurrentIndex(ds).Some? && ds[CurrentIndex(ds).value].checkpointSha == FinalCheckpoint(p)
    ensures HasMockEvidence(p.(deliveries := ds)) == HasMockEvidence(p)
    ensures HasMockCheckpoint(p.(deliveries := ds)) ==> HasMockCheckpoint(p) || IsSyntheticCheckpoint(FinalCheckpoint(p))
  {
  }

  // Preparing again on unchanged evidence returns the same delivery and changes nothing.
  lemma {:induction false} PrepareIsIdempotent(p: Project, packaged: Option<Package>, again: Option<Package>)
    requires LedgerOk(p.deliveries, p.ownerReviews) && Prepare(p, packaged).ok
    ensures var after := p.(deliveries := Prepare(p, packaged).deliveries);
            Prepare(after, again) == Prepared(after.deliveries, true)
  {
    PreparedDeliveryIsCurrent(p, packaged);
    PreparedLineageStaysOk(p, packaged);
    var after := p.(deliveries := Prepare(p, packaged).deliveries);
    CurrentReadyIsReused(p, after.deliveries, again);
  }

  lemma {:induction false} KeyIgnoresDeliveries(p: Project, ds: seq<Delivery>)
    ensures DeliveryKeyOf(p.(deliveries := ds)) == DeliveryKeyOf(p)
  {
  }

  lemma {:induction false} CurrentReadyIsReused(p: Project, ds: seq<Delivery>, again: Option<Package>)
    requires FindReusable(ds, DeliveryKeyOf(p)).Some?
    requires var d := ds[FindReusable(ds, DeliveryKeyOf(p)).value]; d.status == Ready && d.current && HasManifest(d)
    ensures Fill(ds, SlotFor(p.(deliveries := ds)), again) == Prepared(ds, true)
  {
    KeyIgnoresDeliveries(p, ds);
    var after := p.(deliveries := ds);
    var i := FindReusable(ds, DeliveryKeyOf(after)).value;
    assert SlotFor(after) == Reuse(i);
    assert ds[i].(current := true) == ds[i];
    assert ds[i := ds[i]] == ds;
  }

  // Rewriting one entry without making it READY or newly current keeps the ledger sound.
  lemma {:induction false} RewriteKeepsLedger(ds: seq<Delivery>, reviews: seq<OwnerReview>, i: nat, d: Delivery)
    requires LedgerOk(ds, reviews) && i < |ds| && Ages(ds[i], d)
    requires d.status != Ready && (d.current ==> ds[i].current)
    ensures LedgerOk(ds[i := d], reviews) && Evolves(ds, ds[i := d])
  {
    assert forall j :: 0 <= j < |ds| ==> ds[j] in ds;
    LedgerFromParts(ds, ds[i := d], reviews);
  }

  // Every owner decision keeps the ledger sound, whether it succeeds or throws.
  lemma {:induction false} DecideKeepsLedger(p: Project, decision: OwnerDecision, feedback: string)
    requires LedgerOk(p.deliveries, p.ownerReviews)
    ensures var r := Decide(p, decision, feedback);
            LedgerOk(r.deliveries, r.ownerReviews) && Evolves(p.deliveries, r.deliveries)
  {
    var r := Decide(p, decision, feedback);
    var index := CurrentIndex(p.deliveries);
    if index.Some? {
      var d := p.deliveries[index.value];
      assert d in p.deliveries && ReadyIsSound(d);
      if d.status != Ready || !DeliveryIsCurrent(p, d) || r.error.None? {
        RewriteKeepsLedger(p.deliveries, p.ownerReviews, index.value, r.deliveries[index.value]);
      }
      if r.error.None? {
        DecideRecordsFinal(p, r.deliveries, r.ownerReviews, index.value);
      }
    }
  }

  lemma {:induction false} DecideRecordsFinal(p: Project, after: seq<Delivery>, reviews: seq<OwnerReview>, index: nat)
    requires ReviewsAreFinal(after, p.ownerReviews) && VersionsIncrease(after) && index < |after|
    requires after[index].status in {Approved, Superseded} && !HasReview(p.ownerReviews, after[index].version)
    requires exists decision :: reviews == p.ownerReviews + [OwnerReview(after[index].version, decision)]
    ensures ReviewsAreFinal(after, reviews)
  {
    var decision :| reviews == p.ownerReviews + [OwnerReview(after[index].version, decision)];
    assert forall i :: 0 <= i < |p.ownerReviews| ==> p.ownerReviews[i] in p.ownerReviews;
    assert after[index] in after;
    forall r, d | r in reviews && d in after && d.version == r.deliveryVersion
      ensures d.status !in {Preparing, Ready}
    {
      if r !in p.ownerReviews {
        var i :| 0 <= i < |after| && after[i] == d;
        assert i == index;
      }
    }
  }

  // A second decision on the same delivery never succeeds: once one is recorded the current delivery is no
  // longer both READY and undecided.
  lemma {:induction false} DecisionIsExclusive(p: Project, first: OwnerDecision, feedback1: string,
                                               second: OwnerDecision, feedback2: string)
    requires LedgerOk(p.deliveries, p.ownerReviews) && Decide(p, first, feedback1).error.None?
    ensures var r := Decide(p, first, feedback1);
            Decide(p.(deliveries := r.deliveries, ownerReviews := r.ownerReviews), second, feedback2).error == Some(StaleDelivery)
  {
    hide EvidenceSetOf, FinalCheckpoint, Trim, PackageValid, VersionsIncrease, ReviewsAreFinal, HasReview;
    DecideKeepsLedger(p, first, feedback1);
    var r := Decide(p, first, feedback1);
    var index := CurrentIndex(p.deliveries).value;
    var next := CurrentIndex(r.deliveries).value;
    if first == OwnerRequestsChanges {
      assert ReadyIsSound(p.deliveries[index]);
      assert forall i :: 0 <= i < |r.deliveries| ==> !r.deliveries[i].current;
      assert ReadyIsSound(r.deliveries[next]);
    } else {
      assert r.deliveries[index].current && next == index;
    }
  }

  // ---- The code: entries are rewritten in place ----

  class Ledger {
    var deliveries: seq<Delivery>
    var ownerReviews: seq<OwnerReview>

    constructor (deliveries: seq<Delivery>, ownerReviews: seq<OwnerReview>)
      ensures this.deliveries == deliveries && this.ownerReviews == ownerReviews
    {
      this.deliveries, this.ownerReviews := deliveries, ownerReviews;
    }

    // prepareDeliverySnapshot; the result is false where the source throws.
    method PrepareSnapshot(p: Project, packaged: Option<Package>) returns (ok: bool)
      requires p.deliveries == deliveries
      modifies this`deliveries
      ensures Prepared(deliveries, ok) == Prepare(p, packaged)
    {
      var reasons := ValidateEvidenceLineage(p, FinalCheckpoint(p));
      assert LineageOk(p) <==> reasons == [] by {
        assert reasons != [] ==> reasons[0] in reasons;
      }
      if reasons != [] { return false; }
      var key := DeliveryKeyOf(p);
      var existing := FindReusable(deliveries, key);
      if existing.Some? && deliveries[existing.value].status == Ready && HasManifest(deliveries[existing.value]) {
        deliveries := deliveries[existing.value := deliveries[existing.value].(current := true)];
        return true;
      }
      var index;
      if existing.Some? && deliveries[existing.value].status == Preparing {
        index := existing.value;
      } else {
        index := |deliveries|;
        deliveries := deliveries + [NewDelivery(p)];
      }
      if packaged.None? { return false; }
      if !PackageValid(packaged.value) { return false; }
      PublishEntry(index, packaged.value);
      return true;
    }

    // prepare.js:197-219
    method PublishEntry(index: nat, package: Package)
      requires index < |deliveries|
      modifies this`deliveries
      ensures deliveries == Published(old(deliveries), index, package)
    {
      deliveries := deliveries[index := deliveries[index].(status := Ready, current := true, package := Some(package))];
      var i := 0;
      while i < |deliveries|
        invariant 0 <= i <= |deliveries| == |old(deliveries)|
        invariant deliveries[index] == old(deliveries)[index].(status := Ready, current := true, package := Some(package))
        invariant forall j :: 0 <= j < i && j != index ==> deliveries[j] == Demoted(old(deliveries)[j])
        invariant forall j :: i <= j < |deliveries| && j != index ==> deliveries[j] == old(deliveries)[j]
      {
        var item := deliveries[i];
        if i != index && item.current {
          item := item.(current := false);
          if item.status == Ready { item := item.(status := Superseded); }
          deliveries := deliveries[i := item];
        }
        i := i + 1;
      }
    }

    // recordOwnerDecision
    method RecordOwnerDecision(p: Project, decision: OwnerDecision, feedback: string)
      returns (error: Option<DecisionError>)
      requires p.deliveries == deliveries && p.ownerReviews == ownerReviews
      modifies this
      ensures Decided(deliveries, ownerReviews, error) == Decide(p, decision, feedback)
    {
      var index := CurrentIndex(deliveries);
      if index.None? { return Some(NoDelivery); }
      var d := deliveries[index.value];
      if d.status != Ready || !DeliveryIsCurrent(p, d) {
        deliveries := deliveries[index.value := d.(status := if d.status == Approved then d.status else Stale)];
        return Some(StaleDelivery);
      }
      if HasReview(ownerReviews, d.version) { return Some(DecisionConflict); }
      if decision == OwnerRequestsChanges && Trim(feedback) == "" { return Some(InvalidFeedback); }
      ownerReviews := ownerReviews + [OwnerReview(d.version, decision)];
      if decision == OwnerApproves {
        deliveries := deliveries[index.value := d.(status := Approved, current := true)];
      } else {
        deliveries := deliveries[index.value := d.(status := Superseded, current := false)];
      }
      return None;
    }
  }
}
