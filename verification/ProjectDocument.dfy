// Taking a project document apart into rows and assembling it again (src/storage/project-document.js:28-212), for
// the state, the iteration, the transition history, the evidence and the Council's payloads. Absent text is "".
module ProjectDocument {
  import opened Text
  import opened States

  // A stored Council payload without its round history; finals may carry the number of Cursor runs they judged.
  datatype Payload = Payload(content: string, cursorCount: Option<nat>)
  datatype Transition = Transition(from: State, to: State, note: string, details: string, at: string)
  datatype Review = Review(iteration: nat, payload: Payload)

  datatype Document = Document(
    state: State, iteration: nat, history: seq<Transition>, discovery: Option<Payload>, reviews: seq<Review>,
    final: Option<Payload>, finalHistory: seq<Payload>, evidence: Option<string>, runEvidence: seq<Option<string>>)

  datatype Kind = DiscoveryKind | ReviewKind | FinalKind
  datatype Artifact = Artifact(kind: Kind, iteration: nat, payload: Payload)
  datatype Rows = Rows(
    state: State, iteration: nat, transitions: seq<Transition>, artifacts: seq<Artifact>,
    runEvidence: seq<Option<string>>)

  // Object keys are unique.
  predicate ValidDocument(d: Document) {
    forall i, j :: 0 <= i < j < |d.reviews| ==> d.reviews[i].iteration != d.reviews[j].iteration
  }

  // ---- Disassembling ----

  function ReviewRows(reviews: seq<Review>, n: nat): seq<Artifact>
    requires n <= |reviews|
  {
    if n == 0 then []
    else ReviewRows(reviews, n - 1) + [Artifact(ReviewKind, reviews[n - 1].iteration, reviews[n - 1].payload)]
  }

  // The earlier finals and then the current one.
  function Finals(d: Document): seq<Payload> {
    d.finalHistory + (if d.final.Some? then [d.final.value] else [])
  }

  // The number of runs a final judged, or else its place.
  function FinalKey(finals: seq<Payload>, i: nat): nat
    requires i < |finals|
  {
    if finals[i].cursorCount.Some? then finals[i].cursorCount.value else i + 1
  }

  function FinalRows(finals: seq<Payload>, n: nat): (r: seq<Artifact>)
    requires n <= |finals|
    ensures |r| == n && forall i :: 0 <= i < n ==> r[i] == Artifact(FinalKind, FinalKey(finals, i), finals[i])
  {
    if n == 0 then [] else FinalRows(finals, n - 1) + [Artifact(FinalKind, FinalKey(finals, n - 1), finals[n - 1])]
  }

  function DiscoveryRows(d: Document): seq<Artifact> {
    if d.discovery.Some? then [Artifact(DiscoveryKind, 0, d.discovery.value)] else []
  }

  function Disassemble(d: Document): Rows {
    Rows(d.state, d.iteration, d.history,
         DiscoveryRows(d) + ReviewRows(d.reviews, |d.reviews|) + FinalRows(Finals(d), |Finals(d)|), d.runEvidence)
  }

  method PushReviews(reviews: seq<Review>, before: seq<Artifact>) returns (artifacts: seq<Artifact>)
    ensures artifacts == before + ReviewRows(reviews, |reviews|)
  {
    artifacts := before;
    for n := 0 to |reviews|
      invariant artifacts == before + ReviewRows(reviews, n)
    {
      artifacts := artifacts + [Artifact(ReviewKind, reviews[n].iteration, reviews[n].payload)];
    }
  }

  method PushFinals(finals: seq<Payload>, before: seq<Artifact>) returns (artifacts: seq<Artifact>)
    ensures artifacts == before + FinalRows(finals, |finals|)
  {
    artifacts := before;
    for n := 0 to |finals|
      invariant artifacts == before + FinalRows(finals, n)
    {
      artifacts := artifacts + [Artifact(FinalKind, FinalKey(finals, n), finals[n])];
    }
  }

  method DisassembleProject(d: Document) returns (rows: Rows)
    ensures rows == Disassemble(d)
  {
    hide ReviewRows, FinalRows;
    var artifacts: seq<Artifact> := [];
    if d.discovery.Some? { artifacts := artifacts + [Artifact(DiscoveryKind, 0, d.discovery.value)]; }
    artifacts := PushReviews(d.reviews, artifacts);
    var finals := d.finalHistory;
    if d.final.Some? { finals := finals + [d.final.value]; }
    artifacts := PushFinals(finals, artifacts);
    rows := Rows(d.state, d.iteration, d.history, artifacts, d.runEvidence);
  }

  // ---- Assembling ----

  function OfKind(artifacts: seq<Artifact>, kind: Kind): seq<Artifact> {
    if artifacts == [] then []
    else (if artifacts[0].kind == kind then [artifacts[0]] else []) + OfKind(artifacts[1..], kind)
  }

  // Assigning to the property of a review: a new one goes to the end.
  function SetReview(reviews: seq<Review>, n: nat, payload: Payload): seq<Review> {
    if reviews == [] then [Review(n, payload)]
    else if reviews[0].iteration == n then [Review(n, payload)] + reviews[1..]
    else [reviews[0]] + SetReview(reviews[1..], n, payload)
  }

  function CollectReviews(artifacts: seq<Artifact>): seq<Review> {
    if artifacts == [] then []
    else
      var last := artifacts[|artifacts| - 1];
      SetReview(CollectReviews(artifacts[..|artifacts| - 1]), last.iteration, last.payload)
  }

  // Array.prototype.sort by iteration is stable.
  function Insert(a: Artifact, sorted: seq<Artifact>): seq<Artifact> {
    if sorted == [] || a.iteration <= sorted[0].iteration then [a] + sorted
    else [sorted[0]] + Insert(a, sorted[1..])
  }

  function SortFinals(artifacts: seq<Artifact>): seq<Artifact> {
    if artifacts == [] then [] else Insert(artifacts[0], SortFinals(artifacts[1..]))
  }

  function Payloads(artifacts: seq<Artifact>): (r: seq<Payload>)
    ensures |r| == |artifacts| && forall i :: 0 <= i < |r| ==> r[i] == artifacts[i].payload
  {
    seq(|artifacts|, i requires 0 <= i < |artifacts| => artifacts[i].payload)
  }

  // The evidence of the last Cursor run that has some (project-document.js:313-319).
  function LatestEvidence(runs: seq<Option<string>>): Option<string> {
    if runs == [] then None
    else if runs[|runs| - 1].Some? then runs[|runs| - 1]
    else LatestEvidence(runs[..|runs| - 1])
  }

  function Assemble(rows: Rows): Document {
    var discovery := OfKind(rows.artifacts, DiscoveryKind);
    var finals := SortFinals(OfKind(rows.artifacts, FinalKind));
    Document(
      rows.state, rows.iteration, rows.transitions,
      if discovery == [] then None else Some(discovery[0].payload),
      CollectReviews(OfKind(rows.artifacts, ReviewKind)),
      if finals == [] then None else Some(finals[|finals| - 1].payload),
      if finals == [] then [] else Payloads(finals[..|finals| - 1]),
      LatestEvidence(rows.runEvidence), rows.runEvidence)
  }

  method FindEvidence(runs: seq<Option<string>>) returns (evidence: Option<string>)
    ensures evidence == LatestEvidence(runs)
  {
    var i := |runs|;
    assert runs[..|runs|] == runs;
    while i > 0
      invariant 0 <= i <= |runs| && LatestEvidence(runs) == LatestEvidence(runs[..i])
    {
      i := i - 1;
      assert runs[..i + 1][..i] == runs[..i];
      if runs[i].Some? { return runs[i]; }
    }
    return None;
  }

  method CollectReviewRows(rows: seq<Artifact>) returns (reviews: seq<Review>)
    ensures reviews == CollectReviews(rows)
  {
    reviews := [];
    for n := 0 to |rows|
      invariant reviews == CollectReviews(rows[..n])
    {
      reviews := SetReview(reviews, rows[n].iteration, rows[n].payload);
      assert rows[..n + 1][..n] == rows[..n];
    }
    assert rows[..|rows|] == rows;
  }

  method AssembleProject(rows: Rows) returns (d: Document)
    ensures d == Assemble(rows)
  {
    hide CollectReviews, SortFinals, OfKind, LatestEvidence;
    var discovery := OfKind(rows.artifacts, DiscoveryKind);
    var reviews := CollectReviewRows(OfKind(rows.artifacts, ReviewKind));
    var finals := SortFinals(OfKind(rows.artifacts, FinalKind));
    var final: Option<Payload>, finalHistory: seq<Payload> := None, [];
    if finals != [] {
      final := Some(finals[|finals| - 1].payload);
      if |finals| > 1 { finalHistory := Payloads(finals[..|finals| - 1]); }
    }
    var evidence := FindEvidence(rows.runEvidence);
    d := Document(
      rows.state, rows.iteration, rows.transitions, if discovery == [] then None else Some(discovery[0].payload),
      reviews, final, finalHistory, evidence, rows.runEvidence);
  }

  // ---- The round trip ----

  lemma {:induction false} OfKindAppend(a: seq<Artifact>, b: seq<Artifact>, kind: Kind)
    ensures OfKind(a + b, kind) == OfKind(a, kind) + OfKind(b, kind)
  {
    if a == [] {
      assert a + b == b;
    } else {
      OfKindAppend(a[1..], b, kind);
      assert (a + b)[0] == a[0] && (a + b)[1..] == a[1..] + b;
      Associates(if a[0].kind == kind then [a[0]] else [], OfKind(a[1..], kind), OfKind(b, kind));
    }
  }

  lemma {:induction false} OfOneKind(a: seq<Artifact>, own: Kind, kind: Kind)
    requires forall x :: x in a ==> x.kind == own
    ensures OfKind(a, kind) == if kind == own then a else []
  {
    if a != [] {
      OfOneKind(a[1..], own, kind);
      assert a == [a[0]] + a[1..];
    }
  }

  lemma {:induction false} ReviewRowsKind(reviews: seq<Review>, n: nat)
    requires n <= |reviews|
    ensures forall x :: x in ReviewRows(reviews, n) ==> x.kind == ReviewKind
  {
    if n > 0 { ReviewRowsKind(reviews, n - 1); }
  }

  lemma {:induction false} PartOfKind(a: seq<Artifact>, b: seq<Artifact>, c: seq<Artifact>, kind: Kind)
    requires forall x :: x in a ==> x.kind == DiscoveryKind
    requires forall x :: x in b ==> x.kind == ReviewKind
    requires forall x :: x in c ==> x.kind == FinalKind
    ensures OfKind(a + b + c, kind) == match kind case DiscoveryKind => a case ReviewKind => b case FinalKind => c
  {
    hide OfKind;
    OfKindAppend(a, b, kind);
    OfKindAppend(a + b, c, kind);
    OfOneKind(a, DiscoveryKind, kind);
    OfOneKind(b, ReviewKind, kind);
    OfOneKind(c, FinalKind, kind);
  }

  // Each kind of row is found again, in its order.
  lemma {:induction false} RowsByKind(d: Document)
    ensures OfKind(Disassemble(d).artifacts, DiscoveryKind) == DiscoveryRows(d)
    ensures OfKind(Disassemble(d).artifacts, ReviewKind) == ReviewRows(d.reviews, |d.reviews|)
    ensures OfKind(Disassemble(d).artifacts, FinalKind) == FinalRows(Finals(d), |Finals(d)|)
  {
    hide OfKind, ReviewRows, FinalRows;
    ReviewRowsKind(d.reviews, |d.reviews|);
    var a, b, c := DiscoveryRows(d), ReviewRows(d.reviews, |d.reviews|), FinalRows(Finals(d), |Finals(d)|);
    PartOfKind(a, b, c, DiscoveryKind);
    PartOfKind(a, b, c, ReviewKind);
    PartOfKind(a, b, c, FinalKind);
  }

  lemma {:induction false} SetNewReview(reviews: seq<Review>, n: nat, payload: Payload)
    requires forall r :: r in reviews ==> r.iteration != n
    ensures SetReview(reviews, n, payload) == reviews + [Review(n, payload)]
  {
    if reviews != [] {
      assert reviews[0] in reviews;
      SetNewReview(reviews[1..], n, payload);
      assert reviews == [reviews[0]] + reviews[1..];
    }
  }

  lemma {:induction false} ReviewsReturn(reviews: seq<Review>, n: nat)
    requires n <= |reviews|
    requires forall i, j :: 0 <= i < j < |reviews| ==> reviews[i].iteration != reviews[j].iteration
    ensures CollectReviews(ReviewRows(reviews, n)) == reviews[..n]
  {
    if n > 0 {
      ReviewsReturn(reviews, n - 1);
      var rows := ReviewRows(reviews, n);
      assert rows[..|rows| - 1] == ReviewRows(reviews, n - 1);
      SetNewReview(reviews[..n - 1], reviews[n - 1].iteration, reviews[n - 1].payload);
    }
  }

  predicate InKeyOrder(artifacts: seq<Artifact>) {
    forall i, j :: 0 <= i <= j < |artifacts| ==> artifacts[i].iteration <= artifacts[j].iteration
  }

  lemma {:induction false} InsertAdds(a: Artifact, sorted: seq<Artifact>)
    ensures multiset(Insert(a, sorted)) == multiset{a} + multiset(sorted)
  {
    if sorted != [] {
      assert sorted == [sorted[0]] + sorted[1..];
      if a.iteration > sorted[0].iteration { InsertAdds(a, sorted[1..]); }
    }
  }

  lemma {:induction false} InsertSorts(a: Artifact, sorted: seq<Artifact>)
    requires InKeyOrder(sorted)
    ensures InKeyOrder(Insert(a, sorted)) && multiset(Insert(a, sorted)) == multiset{a} + multiset(sorted)
  {
    InsertAdds(a, sorted);
    if sorted != [] && a.iteration > sorted[0].iteration {
      InsertSorts(a, sorted[1..]);
      var rest := Insert(a, sorted[1..]);
      forall i | 0 <= i < |rest| ensures sorted[0].iteration <= rest[i].iteration {
        assert rest[i] in multiset(rest);
        assert rest[i] in sorted[1..] || rest[i] == a;
      }
    }
  }

  lemma {:induction false} SortSorts(artifacts: seq<Artifact>)
    ensures InKeyOrder(SortFinals(artifacts)) && multiset(SortFinals(artifacts)) == multiset(artifacts)
  {
    if artifacts != [] {
      SortSorts(artifacts[1..]);
      InsertSorts(artifacts[0], SortFinals(artifacts[1..]));
      assert artifacts == [artifacts[0]] + artifacts[1..];
    }
  }

  // The stable sort leaves an ordered list alone.
  lemma {:induction false} SortKeepsOrdered(artifacts: seq<Artifact>)
    requires InKeyOrder(artifacts)
    ensures SortFinals(artifacts) == artifacts
  {
    if artifacts != [] {
      SortKeepsOrdered(artifacts[1..]);
      assert artifacts == [artifacts[0]] + artifacts[1..];
    }
  }

  predicate KeysInOrder(finals: seq<Payload>) {
    forall i, j :: 0 <= i <= j < |finals| ==> FinalKey(finals, i) <= FinalKey(finals, j)
  }

  lemma {:induction false} CountAtLeastTwo(s: seq<Artifact>, m: nat, i: nat)
    requires m < i < |s| && s[m] == s[i]
    ensures multiset(s)[s[i]] >= 2
  {
    assert s == s[..i] + s[i..];
    assert s[m] in s[..i] && s[i] == s[i..][0];
    assert s[i] in multiset(s[..i]) && s[i] in multiset(s[i..]);
  }

  lemma {:induction false} CountAtMostOne(s: seq<Artifact>, m: nat)
    requires m < |s| && forall k :: 0 <= k < |s| && k != m ==> s[k] != s[m]
    ensures multiset(s)[s[m]] == 1
  {
    assert s == s[..m] + [s[m]] + s[m + 1..];
    assert s[m] !in s[..m] && s[m] !in s[m + 1..];
    assert multiset(s) == multiset(s[..m]) + multiset{s[m]} + multiset(s[m + 1..]);
  }

  // Sorting that keeps every payload in its place keeps every row in its place: a payload with a count has the
  // same key wherever it is, and the rows without one are told apart by their keys.
  lemma {:induction false} SamePayloadsSameRows(finals: seq<Payload>, i: nat)
    requires var rows := FinalRows(finals, |finals|); Payloads(SortFinals(rows)) == finals
    requires i <= |finals|
    ensures |SortFinals(FinalRows(finals, |finals|))| == |finals|
    ensures SortFinals(FinalRows(finals, |finals|))[..i] == FinalRows(finals, |finals|)[..i]
    decreases i
  {
    hide SortFinals, InKeyOrder;
    var rows := FinalRows(finals, |finals|);
    var sorted := SortFinals(rows);
    SortSorts(rows);
    assert |Payloads(sorted)| == |finals|;
    if i > 0 {
      SamePayloadsSameRows(finals, i - 1);
      PlacesAgree(finals, rows, sorted, i - 1);
      assert sorted[..i] == sorted[..i - 1] + [sorted[i - 1]] && rows[..i] == rows[..i - 1] + [rows[i - 1]];
    }
  }

  // A row that stands at place i after sorting stood no earlier before.
  lemma {:induction false} NotFromBefore(rows: seq<Artifact>, sorted: seq<Artifact>, i: nat, m: nat)
    requires |sorted| == |rows| && i < |rows| && m < |rows| && multiset(sorted) == multiset(rows)
    requires sorted[..i] == rows[..i] && sorted[i] == rows[m]
    requires forall k :: 0 <= k < |rows| && k != m ==> rows[k] != rows[m]
    ensures i <= m
  {
    if m < i {
      CountAtMostOne(rows, m);
      assert sorted[m] == sorted[..i][m] == rows[..i][m] == rows[m];
      CountAtLeastTwo(sorted, m, i);
    }
  }

  lemma {:induction false} NotToBefore(rows: seq<Artifact>, sorted: seq<Artifact>, i: nat, j: nat)
    requires |sorted| == |rows| && i < |rows| && j < |rows|
    requires sorted[..i] == rows[..i] && sorted[j] == rows[i]
    requires forall k :: 0 <= k < |rows| && k != i ==> rows[k] != rows[i]
    ensures i <= j
  {
    assert forall k :: 0 <= k < i ==> sorted[k] == sorted[..i][k] == rows[..i][k] == rows[k];
  }

  lemma {:induction false} UncountedIsUnique(finals: seq<Payload>, m: nat)
    requires m < |finals| && finals[m].cursorCount.None?
    ensures var rows := FinalRows(finals, |finals|);
            rows[m].iteration == m + 1 && forall k :: 0 <= k < |rows| && k != m ==> rows[k] != rows[m]
  {
  }

  lemma {:induction false} PlacesAgree(finals: seq<Payload>, rows: seq<Artifact>, sorted: seq<Artifact>, i: nat)
    requires i < |finals| && rows == FinalRows(finals, |finals|)
    requires InKeyOrder(sorted) && multiset(sorted) == multiset(rows) && |sorted| == |rows|
    requires Payloads(sorted) == finals && sorted[..i] == rows[..i]
    ensures sorted[i] == rows[i]
  {
    hide FinalRows;
    assert Payloads(sorted)[i] == sorted[i].payload == finals[i];
    assert sorted[i] in multiset(rows) && rows[i] in multiset(sorted);
    var m: nat :| m < |rows| && rows[m] == sorted[i];
    var j: nat :| j < |sorted| && sorted[j] == rows[i];
    if finals[i].cursorCount.None? {
      UncountedIsUnique(finals, i);
      UncountedIsUnique(finals, m);
      NotFromBefore(rows, sorted, i, m);
      NotToBefore(rows, sorted, i, j);
    }
  }

  lemma {:induction false} SortKeepsPayloadsIffOrdered(finals: seq<Payload>)
    ensures Payloads(SortFinals(FinalRows(finals, |finals|))) == finals <==> KeysInOrder(finals)
  {
    var rows := FinalRows(finals, |finals|);
    assert InKeyOrder(rows) <==> KeysInOrder(finals);
    if KeysInOrder(finals) { SortKeepsOrdered(rows); }
    if Payloads(SortFinals(rows)) == finals {
      SamePayloadsSameRows(finals, |finals|);
      SortSorts(rows);
      assert SortFinals(rows)[..|finals|] == SortFinals(rows) && rows[..|finals|] == rows;
    }
  }

  predicate Survives(d: Document) {
    && (d.final.Some? || d.finalHistory == [])
    && KeysInOrder(Finals(d))
    && d.evidence == LatestEvidence(d.runEvidence)
  }

  function FinalOf(finals: seq<Payload>): Option<Payload> {
    if finals == [] then None else Some(finals[|finals| - 1])
  }

  function HistoryOf(finals: seq<Payload>): seq<Payload> {
    if finals == [] then [] else finals[..|finals| - 1]
  }

  // What comes back: the finals in the order of their keys, the evidence of the last run that has some, and
  // everything else unchanged.
  lemma {:induction false} WhatComesBack(d: Document)
    requires ValidDocument(d)
    ensures var sorted := Payloads(SortFinals(FinalRows(Finals(d), |Finals(d)|)));
            Assemble(Disassemble(d)) == d.(final := FinalOf(sorted), finalHistory := HistoryOf(sorted),
                                           evidence := LatestEvidence(d.runEvidence))
  {
    hide SortFinals, FinalRows, ReviewRows, CollectReviews, OfKind;
    RowsByKind(d);
    ReviewsReturn(d.reviews, |d.reviews|);
    assert d.reviews[..|d.reviews|] == d.reviews;
    var rows := SortFinals(FinalRows(Finals(d), |Finals(d)|));
    assert rows != [] ==> Payloads(rows)[..|rows| - 1] == Payloads(rows[..|rows| - 1]);
  }

  lemma {:induction false} SplitFinals(d: Document, finals: seq<Payload>)
    requires |finals| == |Finals(d)|
    ensures d.(final := FinalOf(finals), finalHistory := HistoryOf(finals)) == d
            <==> finals == Finals(d) && (d.final.Some? || d.finalHistory == [])
  {
    if finals != [] {
      assert finals == HistoryOf(finals) + [FinalOf(finals).value];
    }
    if d.final.Some? {
      assert Finals(d)[..|Finals(d)| - 1] == d.finalHistory;
    }
  }

  // Assembling a disassembled document returns it exactly when a final history never stands without a final, the
  // finals are in the order of their keys, and the evidence is that of the last run that has some; the state, the
  // iteration, the history, the discovery and the reviews always return.
  lemma {:induction false} RoundTripIffOrdered(d: Document)
    requires ValidDocument(d)
    ensures Assemble(Disassemble(d)) == d <==> Survives(d)
    ensures var back := Assemble(Disassemble(d));
            back == d.(final := back.final, finalHistory := back.finalHistory, evidence := back.evidence)
  {
    hide Assemble, Disassemble, SortFinals, FinalRows, KeysInOrder;
    WhatComesBack(d);
    var rows := FinalRows(Finals(d), |Finals(d)|);
    SortKeepsLength(rows);
    SortKeepsPayloadsIffOrdered(Finals(d));
    SplitFinals(d, Payloads(SortFinals(rows)));
  }

  lemma {:induction false} SortKeepsLength(artifacts: seq<Artifact>)
    ensures |SortFinals(artifacts)| == |artifacts|
  {
    SortSorts(artifacts);
    assert |multiset(SortFinals(artifacts))| == |multiset(artifacts)|;
  }

  // Three documents that do not survive: a rejected final without a successor comes back as the current one, a
  // final that counts fewer runs than an earlier one changes places with it, and evidence that differs from the
  // last run's is replaced.
  lemma {:induction false} LostDocuments(state: State, p: Payload, e: string, run: string)
    requires e != run
    ensures !Survives(Document(state, 1, [], None, [], None, [p], None, []))
    ensures !Survives(Document(state, 2, [], None, [], Some(Payload("second", Some(1))), [Payload("first", Some(2))],
                               None, []))
    ensures !Survives(Document(state, 1, [], None, [], None, [], Some(e), [Some(run)]))
  {
    var finals := [Payload("first", Some(2)), Payload("second", Some(1))];
    assert FinalKey(finals, 0) > FinalKey(finals, 1);
    var d := Document(state, 2, [], None, [], Some(Payload("second", Some(1))), [Payload("first", Some(2))],
                      None, []);
    assert Finals(d) == finals;
  }

  // The evidence that comes back is that of the last Cursor run that has some.
  lemma {:induction false} EvidenceIsTheLastRuns(runs: seq<Option<string>>)
    ensures LatestEvidence(runs).None? <==> forall i :: 0 <= i < |runs| ==> runs[i].None?
    ensures LatestEvidence(runs).Some? ==>
              exists i :: 0 <= i < |runs| && runs[i] == LatestEvidence(runs) && forall j :: i < j < |runs| ==> runs[j].None?
  {
    if runs != [] && runs[|runs| - 1].None? {
      var before := runs[..|runs| - 1];
      EvidenceIsTheLastRuns(before);
      assert forall i :: 0 <= i < |before| ==> runs[i] == before[i];
    }
  }

  // The rows of one key.
  function OfKey(rows: seq<Artifact>, key: nat): seq<Artifact> {
    if rows == [] then []
    else (if rows[0].iteration == key then [rows[0]] else []) + OfKey(rows[1..], key)
  }

  lemma {:induction false} InsertKeepsKeys(a: Artifact, sorted: seq<Artifact>, key: nat)
    ensures OfKey(Insert(a, sorted), key) == (if a.iteration == key then [a] else []) + OfKey(sorted, key)
  {
    if sorted != [] && a.iteration > sorted[0].iteration {
      InsertKeepsKeys(a, sorted[1..], key);
      assert Insert(a, sorted)[1..] == Insert(a, sorted[1..]);
    } else {
      assert ([a] + sorted)[1..] == sorted;
    }
  }

  // Finals come back in the order of their keys, all of them, and those of one key in the order they had.
  lemma {:induction false} FinalsComeBackInKeyOrder(rows: seq<Artifact>)
    ensures InKeyOrder(SortFinals(rows)) && multiset(SortFinals(rows)) == multiset(rows)
    ensures forall key :: OfKey(SortFinals(rows), key) == OfKey(rows, key)
  {
    SortSorts(rows);
    if rows != [] {
      FinalsComeBackInKeyOrder(rows[1..]);
      forall key ensures OfKey(SortFinals(rows), key) == OfKey(rows, key) {
        InsertKeepsKeys(rows[0], SortFinals(rows[1..]), key);
      }
    }
  }

  // The i-th of the finals, earlier ones first and the current one last, is stored under the number of Cursor runs it
  // judged, or without one under its place; a review under its iteration; the discovery under 0.
  lemma {:induction false} RowsCarryTheirKeys(d: Document, i: nat)
    requires i < |Finals(d)|
    ensures var rows := OfKind(Disassemble(d).artifacts, FinalKind);
            && |rows| == |d.finalHistory| + (if d.final.Some? then 1 else 0) && rows[i].payload == Finals(d)[i]
            && (i < |d.finalHistory| ==> rows[i].payload == d.finalHistory[i])
            && (i == |d.finalHistory| ==> d.final == Some(rows[i].payload))
            && (rows[i].payload.cursorCount.Some? ==> rows[i].iteration == rows[i].payload.cursorCount.value)
            && (rows[i].payload.cursorCount.None? ==> rows[i].iteration == i + 1)
  {
    RowsByKind(d);
    hide OfKind, Disassemble;
  }
}
