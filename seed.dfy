/** The offline seeder: clears the five collections, groups the input
    questions by their phase label, and sends each phase to the collection
    the phase table names, fanning the mission-overview phase out to all
    five. Reading and deleting the input file, connecting to the store and
    logging are not part of this model. */
module Seed {
  import opened Quiz
  import opened DocumentStore

  /** One entry of the input file. */
  datatype QuizQuestion = QuizQuestion(
    phase: string,
    question: string,
    options: seq<string>,
    correct: string,
    explanation: string)

  /** The document inserted for a question: every field but the phase. */
  function ToRecord(q: QuizQuestion): QuizRecord {
    QuizRecord(q.question, q.options, q.correct, q.explanation)
  }

  function Records(qs: seq<QuizQuestion>): seq<QuizRecord> {
    seq(|qs|, i requires 0 <= i < |qs| => ToRecord(qs[i]))
  }

  // ---------------------------------------------------------------------
  // The phase table
  // ---------------------------------------------------------------------

  const OverviewPhase: string := "Terra Mission Overview"

  /** `phaseToModel`: the overview phase maps to null (None here), each of
      the other five phases to one collection. */
  const PhaseToModel: map<string, Option<Category>> := map[
    OverviewPhase := None,
    "MODIS \U{2013} Daily Global Imaging" := Some(MODIS),
    "ASTER \U{2013} High-Resolution Imaging" := Some(ASTER),
    "CERES \U{2013} Earth's Energy Balance" := Some(CERES),
    "MISR \U{2013} Multi-Angle Observations" := Some(MISR),
    "MOPITT \U{2013} Air Pollution Tracking" := Some(MOPITT)]

  /** Where the distribution loop sends a phase's questions. */
  datatype Target = Into(c: Category) | IntoAll | Skipped

  function TargetOf(phase: string): Target {
    if phase in PhaseToModel && PhaseToModel[phase].Some? then Into(PhaseToModel[phase].value)
    else if phase == OverviewPhase then IntoAll
    else Skipped
  }

  /** The phase whose questions go to `c` alone. */
  function PhaseOf(c: Category): (p: string)
    ensures p in PhaseToModel && PhaseToModel[p] == Some(c)
  {
    match c
    case MODIS => "MODIS \U{2013} Daily Global Imaging"
    case ASTER => "ASTER \U{2013} High-Resolution Imaging"
    case CERES => "CERES \U{2013} Earth's Energy Balance"
    case MISR => "MISR \U{2013} Multi-Angle Observations"
    case MOPITT => "MOPITT \U{2013} Air Pollution Tracking"
  }

  /** Whether questions of phase `p` end up in collection `c`. */
  predicate Receives(p: string, c: Category) {
    TargetOf(p) == Into(c) || TargetOf(p) == IntoAll
  }

  /** How many documents one question of phase `p` adds to the total. */
  function Weight(p: string): nat {
    match TargetOf(p)
    case Into(_) => 1
    case IntoAll => 5
    case Skipped => 0
  }

  /** Each collection receives exactly its own phase and the overview phase;
      every other label is skipped. */
  lemma TargetFacts(p: string, c: Category)
    ensures TargetOf(p) == Into(c) <==> p == PhaseOf(c)
    ensures TargetOf(p) == IntoAll <==> p == OverviewPhase
    ensures Receives(p, c) <==> p == PhaseOf(c) || p == OverviewPhase
  {
  }

  // ---------------------------------------------------------------------
  // Grouping by phase
  // ---------------------------------------------------------------------

  /** No label occurs twice: each one differs from every label before it. */
  predicate Distinct(ps: seq<string>) {
    ps == [] || (Distinct(ps[..|ps| - 1]) && ps[|ps| - 1] !in ps[..|ps| - 1])
  }

  /** The phase labels of `qs`, each once, in order of first appearance:
      the key order of the grouping object. */
  function Phases(qs: seq<QuizQuestion>): seq<string> {
    if qs == [] then []
    else
      var ps := Phases(qs[..|qs| - 1]);
      var p := qs[|qs| - 1].phase;
      if p in ps then ps else ps + [p]
  }

  /** The questions of `qs` with phase `p`, in input order. */
  function OfPhase(qs: seq<QuizQuestion>, p: string): seq<QuizQuestion> {
    if qs == [] then []
    else OfPhase(qs[..|qs| - 1], p) + (if qs[|qs| - 1].phase == p then [qs[|qs| - 1]] else [])
  }

  /** The groups of `ps`, one after the other. */
  function Flatten(qs: seq<QuizQuestion>, ps: seq<string>): seq<QuizQuestion> {
    if ps == [] then [] else Flatten(qs, ps[..|ps| - 1]) + OfPhase(qs, ps[|ps| - 1])
  }

  /** Every phase label appears once, and exactly the labels of the input
      appear. */
  lemma {:induction false} PhasesSpec(qs: seq<QuizQuestion>)
    ensures Distinct(Phases(qs))
    ensures forall p :: p in Phases(qs) <==> exists q :: q in qs && q.phase == p
  {
    if qs != [] {
      var init, last := qs[..|qs| - 1], qs[|qs| - 1];
      assert qs == init + [last];
      PhasesSpec(init);
      var ps := Phases(init) + [last.phase];
      assert ps[..|ps| - 1] == Phases(init);
      forall p
        ensures p in Phases(qs) <==> exists q :: q in qs && q.phase == p
      {
        if p in Phases(init) {
          var q :| q in init && q.phase == p;
          assert q in qs;
        }
      }
    }
  }

  /** A group holds exactly the input questions of its phase. */
  lemma {:induction false} OfPhaseMembers(qs: seq<QuizQuestion>, p: string)
    ensures forall q :: q in OfPhase(qs, p) <==> q in qs && q.phase == p
  {
    if qs != [] {
      var init, last := qs[..|qs| - 1], qs[|qs| - 1];
      assert qs == init + [last];
      OfPhaseMembers(init, p);
    }
  }

  lemma AbsentPhaseEmpty(qs: seq<QuizQuestion>, p: string)
    requires p !in Phases(qs)
    ensures OfPhase(qs, p) == []
  {
    PhasesSpec(qs);
    OfPhaseMembers(qs, p);
  }

  lemma {:induction false} FlattenStep(qs: seq<QuizQuestion>, q: QuizQuestion, ps: seq<string>)
    requires Distinct(ps)
    ensures multiset(Flatten(qs + [q], ps)) ==
      multiset(Flatten(qs, ps)) + (if q.phase in ps then multiset{q} else multiset{})
  {
    if ps != [] {
      var init, p := ps[..|ps| - 1], ps[|ps| - 1];
      assert ps == init + [p];
      FlattenStep(qs, q, init);
      assert (qs + [q])[..|qs + [q]| - 1] == qs;
    }
  }

  /** Grouping neither loses nor duplicates a question: the groups, put
      together, are a permutation of the input. */
  lemma {:induction false} GroupingPartitions(qs: seq<QuizQuestion>)
    ensures multiset(Flatten(qs, Phases(qs))) == multiset(qs)
  {
    if qs != [] {
      var init, q := qs[..|qs| - 1], qs[|qs| - 1];
      assert qs == init + [q];
      var before := Phases(init);
      GroupingPartitions(init);
      assert Distinct(before) by { PhasesSpec(init); }
      FlattenStep(init, q, before);
      if q.phase in before {
        assert Phases(qs) == before;
        assert multiset(Flatten(qs, before)) == multiset(init) + multiset{q};
      } else {
        var ps := before + [q.phase];
        assert Phases(qs) == ps;
        assert ps[..|ps| - 1] == before;
        AbsentPhaseEmpty(init, q.phase);
        assert OfPhase(qs, q.phase) == [q];
        assert Flatten(qs, ps) == Flatten(qs, before) + [q];
        assert multiset(Flatten(qs, before)) == multiset(init);
      }
    }
  }

  /** The `forEach` that fills `groupedQuestions`: `order` is the key order
      of the object and `groups` its contents. */
  method GroupByPhase(questions: seq<QuizQuestion>) returns (order: seq<string>, groups: map<string, seq<QuizQuestion>>)
    ensures order == Phases(questions)
    ensures forall p :: p in groups <==> p in order
    ensures forall p :: p in groups ==> groups[p] == OfPhase(questions, p)
  {
    order, groups := [], map[];
    for i := 0 to |questions|
      invariant order == Phases(questions[..i])
      invariant forall p :: p in groups <==> p in order
      invariant forall p :: p in groups ==> groups[p] == OfPhase(questions[..i], p)
    {
      var q := questions[i];
      assert questions[..i + 1][..i] == questions[..i];
      if q.phase !in groups {
        groups := groups[q.phase := []];
        order := order + [q.phase];
        AbsentPhaseEmpty(questions[..i], q.phase);
      }
      groups := groups[q.phase := groups[q.phase] + [q]];
    }
    assert questions[..|questions|] == questions;
  }

  // ---------------------------------------------------------------------
  // Distribution
  // ---------------------------------------------------------------------

  /** What the loop over the groups of `ps` appends to collection `c`. */
  function Contribution(qs: seq<QuizQuestion>, ps: seq<string>, c: Category): seq<QuizRecord> {
    if ps == [] then []
    else
      var p := ps[|ps| - 1];
      Contribution(qs, ps[..|ps| - 1], c) + (if Receives(p, c) then Records(OfPhase(qs, p)) else [])
  }

  /** What the loop over the groups of `ps` adds to `totalInserted`. */
  function Inserted(qs: seq<QuizQuestion>, ps: seq<string>): nat {
    if ps == [] then 0
    else
      var p := ps[|ps| - 1];
      Inserted(qs, ps[..|ps| - 1]) + Weight(p) * |OfPhase(qs, p)|
  }

  /** The contents of collection `c` after a successful run. */
  function Seeded(qs: seq<QuizQuestion>, c: Category): seq<QuizRecord> {
    Contribution(qs, Phases(qs), c)
  }

  /** The final `totalInserted` of a successful run. */
  function SeedTotal(qs: seq<QuizQuestion>): nat {
    Inserted(qs, Phases(qs))
  }

  /** The number of input questions whose phase maps to one collection. */
  function Mapped(qs: seq<QuizQuestion>): nat {
    if qs == [] then 0
    else Mapped(qs[..|qs| - 1]) + (if TargetOf(qs[|qs| - 1].phase).Into? then 1 else 0)
  }

  function Part(qs: seq<QuizQuestion>, ps: seq<string>, p: string): seq<QuizRecord> {
    if p in ps then Records(OfPhase(qs, p)) else []
  }

  lemma {:induction false} ContributionShape(qs: seq<QuizQuestion>, ps: seq<string>, c: Category)
    requires Distinct(ps)
    ensures var own, all := Part(qs, ps, PhaseOf(c)), Part(qs, ps, OverviewPhase);
      Contribution(qs, ps, c) == own + all || Contribution(qs, ps, c) == all + own
  {
    if ps != [] {
      var init, p := ps[..|ps| - 1], ps[|ps| - 1];
      var own, all := PhaseOf(c), OverviewPhase;
      assert ps == init + [p];
      assert Distinct(init);
      ContributionShape(qs, init, c);
      TargetFacts(p, c);
      TargetFacts(all, c);
      assert own != all;
      var prev := Contribution(qs, init, c);
      assert prev == Part(qs, init, own) + Part(qs, init, all) || prev == Part(qs, init, all) + Part(qs, init, own);
      if p == own {
        assert p !in init;
        assert Part(qs, init, own) == [];
        assert prev == Part(qs, init, all);
        assert Part(qs, ps, all) == Part(qs, init, all);
        assert Contribution(qs, ps, c) == Part(qs, ps, all) + Part(qs, ps, own);
      } else if p == all {
        assert p !in init;
        assert Part(qs, init, all) == [];
        assert prev == Part(qs, init, own);
        assert Part(qs, ps, own) == Part(qs, init, own);
        assert Contribution(qs, ps, c) == Part(qs, ps, own) + Part(qs, ps, all);
      } else {
        assert Part(qs, ps, own) == Part(qs, init, own);
        assert Part(qs, ps, all) == Part(qs, init, all);
        assert Contribution(qs, ps, c) == prev;
      }
    }
  }

  /** After a successful run, collection `c` holds its own phase's records
      and the overview records, each block in input order, and nothing
      else. */
  lemma SeededContents(qs: seq<QuizQuestion>, c: Category)
    ensures var own, all := Records(OfPhase(qs, PhaseOf(c))), Records(OfPhase(qs, OverviewPhase));
      Seeded(qs, c) == own + all || Seeded(qs, c) == all + own
  {
    assert Distinct(Phases(qs)) by { PhasesSpec(qs); }
    ContributionShape(qs, Phases(qs), c);
    if PhaseOf(c) !in Phases(qs) {
      AbsentPhaseEmpty(qs, PhaseOf(c));
    }
    if OverviewPhase !in Phases(qs) {
      AbsentPhaseEmpty(qs, OverviewPhase);
    }
  }

  /** A record is in collection `c` after a successful run exactly when it
      is the copy of an input question whose phase is `c`'s own or the
      overview phase. */
  lemma SeededMembers(qs: seq<QuizQuestion>, c: Category, r: QuizRecord)
    ensures r in Seeded(qs, c) <==> exists q :: q in qs && Receives(q.phase, c) && ToRecord(q) == r
  {
    var own, all := OfPhase(qs, PhaseOf(c)), OfPhase(qs, OverviewPhase);
    assert r in Seeded(qs, c) <==> r in Records(own) || r in Records(all) by {
      SeededContents(qs, c);
    }
    if r in Records(own) || r in Records(all) {
      var q: QuizQuestion;
      if r in Records(own) {
        q := RecordSource(own, r);
      } else {
        q := RecordSource(all, r);
      }
      OfPhaseMembers(qs, PhaseOf(c));
      OfPhaseMembers(qs, OverviewPhase);
      TargetFacts(q.phase, c);
      assert q in qs && Receives(q.phase, c) && ToRecord(q) == r;
    }
    if exists q :: q in qs && Receives(q.phase, c) && ToRecord(q) == r {
      var q :| q in qs && Receives(q.phase, c) && ToRecord(q) == r;
      TargetFacts(q.phase, c);
      if q.phase == PhaseOf(c) {
        OfPhaseMembers(qs, PhaseOf(c));
        RecordOf(own, q);
      } else {
        OfPhaseMembers(qs, OverviewPhase);
        RecordOf(all, q);
      }
    }
  }

  /** A question of `xs` whose record is `r`. */
  lemma RecordSource(xs: seq<QuizQuestion>, r: QuizRecord) returns (q: QuizQuestion)
    requires r in Records(xs)
    ensures q in xs && ToRecord(q) == r
  {
    var i :| 0 <= i < |xs| && Records(xs)[i] == r;
    q := xs[i];
  }

  lemma RecordOf(xs: seq<QuizQuestion>, q: QuizQuestion)
    requires q in xs
    ensures ToRecord(q) in Records(xs)
  {
    var i :| 0 <= i < |xs| && xs[i] == q;
    assert Records(xs)[i] == ToRecord(q);
  }

  /** After a successful run, collection `c` holds as many records as there
      are input questions of its own phase and of the overview phase. */
  lemma SeededSize(qs: seq<QuizQuestion>, c: Category)
    ensures |Seeded(qs, c)| == |OfPhase(qs, PhaseOf(c))| + |OfPhase(qs, OverviewPhase)|
  {
    SeededContents(qs, c);
  }

  lemma {:induction false} InsertedStep(qs: seq<QuizQuestion>, q: QuizQuestion, ps: seq<string>)
    requires Distinct(ps)
    ensures Inserted(qs + [q], ps) == Inserted(qs, ps) + (if q.phase in ps then Weight(q.phase) else 0)
  {
    if ps != [] {
      var init, p := ps[..|ps| - 1], ps[|ps| - 1];
      assert ps == init + [p];
      assert Distinct(init);
      InsertedStep(qs, q, init);
      var qs' := qs + [q];
      assert qs'[..|qs'| - 1] == qs;
      var n, w := |OfPhase(qs, p)|, Weight(p);
      assert Inserted(qs, ps) == Inserted(qs, init) + w * n;
      if q.phase == p {
        assert q.phase !in init;
        assert |OfPhase(qs', p)| == n + 1;
        assert w * (n + 1) == w * n + w;
      } else {
        assert |OfPhase(qs', p)| == n;
      }
    }
  }

  /** The final total is the number of questions of mapped phases plus five
      times the number of overview questions; questions of unknown phases
      add nothing. */
  lemma {:induction false} SeedTotalCounts(qs: seq<QuizQuestion>)
    ensures SeedTotal(qs) == Mapped(qs) + 5 * |OfPhase(qs, OverviewPhase)|
  {
    if qs != [] {
      var init, q := qs[..|qs| - 1], qs[|qs| - 1];
      SeedTotalCounts(init);
      TotalStep(init, q);
      assert qs == init + [q];
      TargetFacts(q.phase, ASTER);
      var n := |OfPhase(init, OverviewPhase)|;
      assert |OfPhase(qs, OverviewPhase)| == n + (if q.phase == OverviewPhase then 1 else 0);
      assert 5 * (n + 1) == 5 * n + 5;
    }
  }

  /** One more question adds its phase's weight to the final total. */
  lemma TotalStep(init: seq<QuizQuestion>, q: QuizQuestion)
    ensures SeedTotal(init + [q]) == SeedTotal(init) + Weight(q.phase)
  {
    var qs := init + [q];
    var before := Phases(init);
    assert qs[..|qs| - 1] == init;
    assert Distinct(before) by { PhasesSpec(init); }
    InsertedStep(init, q, before);
    if q.phase !in before {
      var ps := before + [q.phase];
      assert Phases(qs) == ps;
      assert ps[..|ps| - 1] == before;
      AbsentPhaseEmpty(init, q.phase);
      assert OfPhase(qs, q.phase) == [q];
      assert Inserted(qs, ps) == Inserted(qs, before) + Weight(q.phase) * 1;
    }
  }

  lemma {:induction false} MappedSplits(qs: seq<QuizQuestion>)
    ensures Mapped(qs) == |OfPhase(qs, PhaseOf(ASTER))| + |OfPhase(qs, PhaseOf(CERES))| +
      |OfPhase(qs, PhaseOf(MODIS))| + |OfPhase(qs, PhaseOf(MOPITT))| + |OfPhase(qs, PhaseOf(MISR))|
  {
    if qs != [] {
      var init, q := qs[..|qs| - 1], qs[|qs| - 1];
      MappedSplits(init);
      TargetFacts(q.phase, ASTER);
      TargetFacts(q.phase, CERES);
      TargetFacts(q.phase, MODIS);
      TargetFacts(q.phase, MOPITT);
      TargetFacts(q.phase, MISR);
    }
  }

  /** The running total of a successful run equals the number of records
      the five collections hold afterwards. */
  lemma SeedTotalStored(qs: seq<QuizQuestion>)
    ensures SeedTotal(qs) == |Seeded(qs, ASTER)| + |Seeded(qs, CERES)| + |Seeded(qs, MODIS)| +
      |Seeded(qs, MOPITT)| + |Seeded(qs, MISR)|
  {
    SeedTotalCounts(qs);
    MappedSplits(qs);
    SeededSize(qs, ASTER);
    SeededSize(qs, CERES);
    SeededSize(qs, MODIS);
    SeededSize(qs, MOPITT);
    SeededSize(qs, MISR);
  }

  lemma {:induction false} ContributionIgnores(qs: seq<QuizQuestion>, q: QuizQuestion, ps: seq<string>, c: Category)
    requires !Receives(q.phase, c)
    ensures Contribution(qs + [q], ps, c) == Contribution(qs, ps, c)
  {
    if ps != [] {
      var init, p := ps[..|ps| - 1], ps[|ps| - 1];
      ContributionIgnores(qs, q, init, c);
      assert (qs + [q])[..|qs + [q]| - 1] == qs;
    }
  }

  /** A question whose phase is not in the table changes neither any
      collection nor the total. */
  lemma UnknownPhaseIgnored(qs: seq<QuizQuestion>, q: QuizQuestion, c: Category)
    requires TargetOf(q.phase) == Skipped
    ensures Seeded(qs + [q], c) == Seeded(qs, c)
    ensures SeedTotal(qs + [q]) == SeedTotal(qs)
  {
    var qs' := qs + [q];
    assert qs'[..|qs'| - 1] == qs;
    ContributionIgnores(qs, q, Phases(qs), c);
    if q.phase !in Phases(qs) {
      var ps := Phases(qs) + [q.phase];
      assert ps[..|ps| - 1] == Phases(qs);
    }
    SeedTotalCounts(qs);
    SeedTotalCounts(qs');
    TargetFacts(q.phase, c);
  }

  // ---------------------------------------------------------------------
  // The seeding run
  // ---------------------------------------------------------------------

  /** The five `deleteMany` calls, in the order they are issued. */
  const ClearCalls: seq<Call> := [Clear(MODIS), Clear(ASTER), Clear(CERES), Clear(MISR), Clear(MOPITT)]

  /** The store calls one pass of the loop issues for `phase`. */
  function PassCalls(phase: string): seq<Call> {
    match TargetOf(phase)
    case Into(c) => [Insert(c)]
    case IntoAll => [Insert(MODIS), Insert(ASTER), Insert(CERES), Insert(MISR), Insert(MOPITT)]
    case Skipped => []
  }

  /** Whether the pass for `phase` meets an insert that throws. */
  predicate PassFails(failing: map<Call, Thrown>, phase: string) {
    match TargetOf(phase)
    case Into(c) => Insert(c) in failing
    case IntoAll =>
      Insert(MODIS) in failing || Insert(ASTER) in failing || Insert(CERES) in failing ||
      Insert(MISR) in failing || Insert(MOPITT) in failing
    case Skipped => false
  }

  /** A pass fails iff the insert into some collection it reaches throws. */
  lemma PassFailsMeans(failing: map<Call, Thrown>, phase: string)
    ensures PassFails(failing, phase) <==> exists c: Category :: Receives(phase, c) && Insert(c) in failing
  {
    if TargetOf(phase) == IntoAll {
      if PassFails(failing, phase) {
        if Insert(MODIS) in failing { assert Receives(phase, MODIS); }
        else if Insert(ASTER) in failing { assert Receives(phase, ASTER); }
        else if Insert(CERES) in failing { assert Receives(phase, CERES); }
        else if Insert(MISR) in failing { assert Receives(phase, MISR); }
        else { assert Receives(phase, MOPITT); }
      }
      if exists c: Category :: Receives(phase, c) && Insert(c) in failing {
        var c: Category :| Receives(phase, c) && Insert(c) in failing;
        match c
        case MODIS =>
        case ASTER =>
        case CERES =>
        case MISR =>
        case MOPITT =>
      }
    }
  }

  /** The calls of the loop over `ps`: every pass issues its inserts, and
      the loop ends after the first pass whose insert throws. */
  ghost function LoopCalls(failing: map<Call, Thrown>, ps: seq<string>): seq<Call> {
    if ps == [] then []
    else PassCalls(ps[0]) + (if PassFails(failing, ps[0]) then [] else LoopCalls(failing, ps[1..]))
  }

  /** What the loop over `ps` appends to collection `c`, failures included:
      a pass adds its records to every collection whose insert succeeds. */
  ghost function LoopAppends(failing: map<Call, Thrown>, qs: seq<QuizQuestion>, ps: seq<string>, c: Category): seq<QuizRecord> {
    if ps == [] then []
    else
      (if Receives(ps[0], c) && Insert(c) !in failing then Records(OfPhase(qs, ps[0])) else []) +
      (if PassFails(failing, ps[0]) then [] else LoopAppends(failing, qs, ps[1..], c))
  }

  /** Whether no store call of a whole run fails: the five clears, and an
      insert into every collection some phase of the input reaches. */
  ghost predicate SeedingSucceeds(failing: map<Call, Thrown>, qs: seq<QuizQuestion>) {
    (forall c: Category :: Clear(c) !in failing) &&
    (forall p :: p in Phases(qs) ==> !PassFails(failing, p))
  }

  /** The effect of five `deleteMany` calls in a row, collection by
      collection. */
  lemma ClearedEach(failing: map<Call, Thrown>, s0: map<Category, seq<QuizRecord>>, s1: map<Category, seq<QuizRecord>>,
                    s2: map<Category, seq<QuizRecord>>, s3: map<Category, seq<QuizRecord>>,
                    s4: map<Category, seq<QuizRecord>>, s5: map<Category, seq<QuizRecord>>)
    requires forall c: Category :: c in s0
    requires s1 == s0[MODIS := if Clear(MODIS) in failing then s0[MODIS] else []]
    requires s2 == s1[ASTER := if Clear(ASTER) in failing then s1[ASTER] else []]
    requires s3 == s2[CERES := if Clear(CERES) in failing then s2[CERES] else []]
    requires s4 == s3[MISR := if Clear(MISR) in failing then s3[MISR] else []]
    requires s5 == s4[MOPITT := if Clear(MOPITT) in failing then s4[MOPITT] else []]
    ensures forall c: Category :: s5[c] == if Clear(c) in failing then s0[c] else []
  {
    assert s5[MODIS] == s4[MODIS] == s3[MODIS] == s2[MODIS] == s1[MODIS];
    assert s5[ASTER] == s4[ASTER] == s3[ASTER] == s2[ASTER] && s1[ASTER] == s0[ASTER];
    assert s5[CERES] == s4[CERES] == s3[CERES] && s2[CERES] == s1[CERES] == s0[CERES];
    assert s5[MISR] == s4[MISR] && s3[MISR] == s2[MISR] == s1[MISR] == s0[MISR];
    assert s4[MOPITT] == s3[MOPITT] == s2[MOPITT] == s1[MOPITT] == s0[MOPITT];
    forall c: Category
      ensures s5[c] == if Clear(c) in failing then s0[c] else []
    {
      match c
      case MODIS =>
      case ASTER =>
      case CERES =>
      case MISR =>
      case MOPITT =>
    }
  }

  /** The `Promise.all` of the five `deleteMany` calls: all five are issued;
      the step fails when any of them does. */
  method ClearAll(store: Store) returns (ok: bool)
    requires store.Valid()
    modifies store`collections, store`log
    ensures store.Valid()
    ensures store.log == old(store.log) + ClearCalls
    ensures ok <==> forall c: Category :: Clear(c) !in store.failing
    ensures forall c: Category :: store.collections[c] == if Clear(c) in store.failing then old(store.collections)[c] else []
  {
    ghost var s0 := store.collections;
    var modis := store.DeleteMany(MODIS);
    ghost var s1 := store.collections;
    var aster := store.DeleteMany(ASTER);
    ghost var s2 := store.collections;
    var ceres := store.DeleteMany(CERES);
    ghost var s3 := store.collections;
    var misr := store.DeleteMany(MISR);
    ghost var s4 := store.collections;
    var mopitt := store.DeleteMany(MOPITT);
    ok := modis.Returned? && aster.Returned? && ceres.Returned? && misr.Returned? && mopitt.Returned?;
    forall c: Category
      ensures ok ==> Clear(c) !in store.failing
    {
      match c
      case MODIS =>
      case ASTER =>
      case CERES =>
      case MISR =>
      case MOPITT =>
    }
    ClearedEach(store.failing, s0, s1, s2, s3, s4, store.collections);
  }

  /** The `Promise.all` of five `insertMany` calls for the overview phase:
      the same documents go to every collection. `count` is the length of
      the first result. */
  method InsertIntoAll(store: Store, docs: seq<QuizRecord>) returns (ok: bool, count: nat)
    requires store.Valid()
    modifies store`collections, store`log
    ensures store.Valid()
    ensures store.log == old(store.log) + [Insert(MODIS), Insert(ASTER), Insert(CERES), Insert(MISR), Insert(MOPITT)]
    ensures ok <==> forall c: Category :: Insert(c) !in store.failing
    ensures ok ==> count == |docs|
    ensures forall c: Category :: Insert(c) in store.failing ==> store.collections[c] == old(store.collections)[c]
    ensures forall c: Category :: Insert(c) !in store.failing ==> store.collections[c] == old(store.collections)[c] + docs
  {
    var modis := store.InsertMany(MODIS, docs);
    var aster := store.InsertMany(ASTER, docs);
    var ceres := store.InsertMany(CERES, docs);
    var misr := store.InsertMany(MISR, docs);
    var mopitt := store.InsertMany(MOPITT, docs);
    ok := modis.Returned? && aster.Returned? && ceres.Returned? && misr.Returned? && mopitt.Returned?;
    count := if modis.Returned? then |modis.value| else 0;
    forall c: Category
      ensures ok ==> Insert(c) !in store.failing
    {
      match c
      case MODIS =>
      case ASTER =>
      case CERES =>
      case MISR =>
      case MOPITT =>
    }
    forall c: Category
      ensures Insert(c) in store.failing ==> store.collections[c] == old(store.collections)[c]
      ensures Insert(c) !in store.failing ==> store.collections[c] == old(store.collections)[c] + docs
    {
      match c
      case MODIS =>
      case ASTER =>
      case CERES =>
      case MISR =>
      case MOPITT =>
    }
  }

  /** One pass of the `for ... of` loop: the questions of `phase` go to the
      collection the table names, or to all five for the overview phase, or
      nowhere. `added` is what the pass adds to `totalInserted`. */
  method DistributePhase(store: Store, phase: string, phaseQuestions: seq<QuizQuestion>) returns (ok: bool, added: nat)
    requires store.Valid()
    modifies store`collections, store`log
    ensures store.Valid()
    ensures store.log == old(store.log) + PassCalls(phase)
    ensures ok <==> !PassFails(store.failing, phase)
    ensures ok ==> added == Weight(phase) * |phaseQuestions|
    ensures forall c: Category ::
      store.collections[c] == old(store.collections)[c] +
        (if Receives(phase, c) && Insert(c) !in store.failing then Records(phaseQuestions) else [])
  {
    ok, added := true, 0;
    var model := if phase in PhaseToModel then PhaseToModel[phase] else None;
    if model.Some? {
      assert TargetOf(phase) == Into(model.value);
      var inserted := store.InsertMany(model.value, Records(phaseQuestions));
      if inserted.Threw? {
        ok := false;
        return;
      }
      added := |inserted.value|;
    } else if phase == OverviewPhase {
      assert TargetOf(phase) == IntoAll;
      var count;
      ok, count := InsertIntoAll(store, Records(phaseQuestions));
      if !ok {
        PassFailsMeans(store.failing, phase);
        return;
      }
      added := count * 5;
    } else {
      assert TargetOf(phase) == Skipped;
    }
  }

  lemma Associative<T>(a: seq<T>, b: seq<T>, c: seq<T>)
    ensures a + (b + c) == (a + b) + c
  {
  }

  /** One pass of the loop, seen from the calls: after the pass for
      `ps[k]`, the log either holds all the calls of the loop (the pass
      failed) or still awaits those of the remaining passes. */
  lemma CallsStep(failing: map<Call, Thrown>, ps: seq<string>, k: nat, start: seq<Call>, before: seq<Call>)
    requires k < |ps|
    requires start + LoopCalls(failing, ps) == before + LoopCalls(failing, ps[k..])
    ensures PassFails(failing, ps[k]) ==> before + PassCalls(ps[k]) == start + LoopCalls(failing, ps)
    ensures !PassFails(failing, ps[k]) ==>
      start + LoopCalls(failing, ps) == before + PassCalls(ps[k]) + LoopCalls(failing, ps[k + 1..])
  {
    var rest, own := ps[k..], PassCalls(ps[k]);
    assert rest[0] == ps[k] && rest[1..] == ps[k + 1..];
    if PassFails(failing, ps[k]) {
      assert LoopCalls(failing, rest) == own + [] == own;
    } else {
      var tail := LoopCalls(failing, ps[k + 1..]);
      assert LoopCalls(failing, rest) == own + tail;
      Associative(before, own, tail);
    }
  }

  /** One pass of the loop, seen from the collections, in the same way. */
  lemma AppendsStep(failing: map<Call, Thrown>, qs: seq<QuizQuestion>, ps: seq<string>, k: nat,
                    before: map<Category, seq<QuizRecord>>, after: map<Category, seq<QuizRecord>>)
    requires k < |ps|
    requires forall c: Category :: c in before && c in after
    requires forall c: Category :: LoopAppends(failing, qs, ps, c) == before[c] + LoopAppends(failing, qs, ps[k..], c)
    requires forall c: Category ::
      after[c] == before[c] + (if Receives(ps[k], c) && Insert(c) !in failing then Records(OfPhase(qs, ps[k])) else [])
    ensures PassFails(failing, ps[k]) ==> forall c: Category :: after[c] == LoopAppends(failing, qs, ps, c)
    ensures !PassFails(failing, ps[k]) ==>
      forall c: Category :: LoopAppends(failing, qs, ps, c) == after[c] + LoopAppends(failing, qs, ps[k + 1..], c)
  {
    var rest, fails := ps[k..], PassFails(failing, ps[k]);
    assert rest[0] == ps[k] && rest[1..] == ps[k + 1..];
    forall c: Category
      ensures fails ==> after[c] == LoopAppends(failing, qs, ps, c)
      ensures !fails ==> LoopAppends(failing, qs, ps, c) == after[c] + LoopAppends(failing, qs, ps[k + 1..], c)
    {
      var own := if Receives(ps[k], c) && Insert(c) !in failing then Records(OfPhase(qs, ps[k])) else [];
      var tail := if fails then [] else LoopAppends(failing, qs, ps[k + 1..], c);
      assert LoopAppends(failing, qs, rest, c) == own + tail;
      assert after[c] == before[c] + own;
      Associative(before[c], own, tail);
    }
  }

  /** `Contribution` read from the first phase on. */
  lemma {:induction false} ContributionFront(qs: seq<QuizQuestion>, p: string, ps: seq<string>, c: Category)
    ensures Contribution(qs, [p] + ps, c) ==
      (if Receives(p, c) then Records(OfPhase(qs, p)) else []) + Contribution(qs, ps, c)
    decreases |ps|
  {
    var first := if Receives(p, c) then Records(OfPhase(qs, p)) else [];
    if ps == [] {
      assert ([p] + ps)[..0] == [];
    } else {
      var init, last := ps[..|ps| - 1], ps[|ps| - 1];
      var own := if Receives(last, c) then Records(OfPhase(qs, last)) else [];
      var whole := [p] + ps;
      assert whole[..|whole| - 1] == [p] + init && whole[|whole| - 1] == last;
      assert Contribution(qs, whole, c) == Contribution(qs, [p] + init, c) + own;
      assert Contribution(qs, ps, c) == Contribution(qs, init, c) + own;
      ContributionFront(qs, p, init, c);
      Associative(first, Contribution(qs, init, c), own);
    }
  }

  /** When no pass fails, the loop appends to each collection exactly its
      contribution. */
  lemma {:induction false} LoopAppendsComplete(failing: map<Call, Thrown>, qs: seq<QuizQuestion>, ps: seq<string>, c: Category)
    requires forall i :: 0 <= i < |ps| ==> !PassFails(failing, ps[i])
    ensures LoopAppends(failing, qs, ps, c) == Contribution(qs, ps, c)
  {
    if ps != [] {
      assert !PassFails(failing, ps[0]);
      LoopAppendsComplete(failing, qs, ps[1..], c);
      ContributionFront(qs, ps[0], ps[1..], c);
      assert [ps[0]] + ps[1..] == ps;
    }
  }

  /** Where the loop stands before the pass for `order[k]`: what the calls
      made since `start`, and the collections, still lack of the whole
      loop's calls and appends is exactly what the passes from `k` on
      contribute. With `k == |order|` the loop is done. */
  ghost predicate Progress(failing: map<Call, Thrown>, qs: seq<QuizQuestion>, order: seq<string>, k: nat,
                           start: seq<Call>, log: seq<Call>, collections: map<Category, seq<QuizRecord>>) {
    k <= |order| && (forall c: Category :: c in collections) &&
    start + LoopCalls(failing, order) == log + LoopCalls(failing, order[k..]) &&
    forall c: Category :: LoopAppends(failing, qs, order, c) == collections[c] + LoopAppends(failing, qs, order[k..], c)
  }

  /** The pass for `order[k]` moves the loop on by one pass, or ends it
      when one of its inserts throws. */
  lemma ProgressStep(failing: map<Call, Thrown>, qs: seq<QuizQuestion>, order: seq<string>, k: nat, start: seq<Call>,
                     log: seq<Call>, before: map<Category, seq<QuizRecord>>,
                     log': seq<Call>, after: map<Category, seq<QuizRecord>>)
    requires k < |order|
    requires Progress(failing, qs, order, k, start, log, before)
    requires log' == log + PassCalls(order[k])
    requires forall c: Category :: c in after
    requires forall c: Category ::
      after[c] == before[c] + (if Receives(order[k], c) && Insert(c) !in failing then Records(OfPhase(qs, order[k])) else [])
    ensures Progress(failing, qs, order, if PassFails(failing, order[k]) then |order| else k + 1, start, log', after)
  {
    CallsStep(failing, order, k, start, log);
    AppendsStep(failing, qs, order, k, before, after);
    if PassFails(failing, order[k]) {
      var done := order[|order|..];
      assert done == [];
      assert log' + LoopCalls(failing, done) == log' + [] == log';
      forall c: Category
        ensures LoopAppends(failing, qs, order, c) == after[c] + LoopAppends(failing, qs, done, c)
      {
        assert after[c] + LoopAppends(failing, qs, done, c) == after[c] + [] == after[c];
      }
    }
  }

  /** One iteration of the loop: the pass for `order[k]`. The loop goes on
      after a pass that succeeds and is done after one that fails. */
  method DistributeNext(store: Store, questions: seq<QuizQuestion>, order: seq<string>,
                        groups: map<string, seq<QuizQuestion>>, k: nat, ghost start: seq<Call>)
    returns (ok: bool, added: nat)
    requires store.Valid()
    requires k < |order|
    requires order[k] in groups && groups[order[k]] == OfPhase(questions, order[k])
    requires Progress(store.failing, questions, order, k, start, store.log, store.collections)
    modifies store`collections, store`log
    ensures store.Valid()
    ensures ok <==> !PassFails(store.failing, order[k])
    ensures ok ==> added == Weight(order[k]) * |OfPhase(questions, order[k])|
    ensures Progress(store.failing, questions, order, if ok then k + 1 else |order|, start, store.log, store.collections)
  {
    ghost var before, calls := store.collections, store.log;
    ok, added := DistributePhase(store, order[k], groups[order[k]]);
    ProgressStep(store.failing, questions, order, k, start, calls, before, store.log, store.collections);
  }

  /** A loop that is done has made all its calls and appends. */
  lemma ProgressDone(failing: map<Call, Thrown>, qs: seq<QuizQuestion>, order: seq<string>,
                     start: seq<Call>, log: seq<Call>, collections: map<Category, seq<QuizRecord>>)
    requires Progress(failing, qs, order, |order|, start, log, collections)
    ensures log == start + LoopCalls(failing, order)
    ensures forall c: Category :: collections[c] == LoopAppends(failing, qs, order, c)
  {
    assert order[|order|..] == [];
  }

  /** A loop in which no pass failed has appended each collection's
      contribution. */
  lemma LoopComplete(failing: map<Call, Thrown>, qs: seq<QuizQuestion>, order: seq<string>,
                     collections: map<Category, seq<QuizRecord>>)
    requires forall i :: 0 <= i < |order| ==> !PassFails(failing, order[i])
    requires forall c: Category :: c in collections && collections[c] == LoopAppends(failing, qs, order, c)
    ensures forall p :: p in order ==> !PassFails(failing, p)
    ensures forall c: Category :: collections[c] == Contribution(qs, order, c)
  {
    forall c: Category
      ensures collections[c] == Contribution(qs, order, c)
    {
      LoopAppendsComplete(failing, qs, order, c);
    }
  }

  lemma InsertedNext(qs: seq<QuizQuestion>, order: seq<string>, k: nat)
    requires k < |order|
    ensures Inserted(qs, order[..k + 1]) == Inserted(qs, order[..k]) + Weight(order[k]) * |OfPhase(qs, order[k])|
  {
    assert order[..k + 1][..k] == order[..k];
  }

  /** The `for ... of` loop over the groups, in key order. It stops at the
      first insert that throws. */
  method DistributeAll(store: Store, questions: seq<QuizQuestion>, order: seq<string>, groups: map<string, seq<QuizQuestion>>)
    returns (ok: bool, totalInserted: nat)
    requires store.Valid()
    requires forall c: Category :: store.collections[c] == []
    requires forall p :: p in order ==> p in groups && groups[p] == OfPhase(questions, p)
    modifies store`collections, store`log
    ensures store.Valid()
    ensures ok <==> forall p :: p in order ==> !PassFails(store.failing, p)
    ensures ok ==> totalInserted == Inserted(questions, order)
    ensures ok ==> forall c: Category :: store.collections[c] == Contribution(questions, order, c)
    ensures store.log == old(store.log) + LoopCalls(store.failing, order)
    ensures forall c: Category :: store.collections[c] == LoopAppends(store.failing, questions, order, c)
  {
    ok, totalInserted := true, 0;
    var k := 0;
    assert order[0..] == order;
    while k < |order|
      invariant 0 <= k <= |order|
      invariant store.Valid()
      invariant Progress(store.failing, questions, order, k, old(store.log), store.log, store.collections)
      invariant forall i :: 0 <= i < k ==> !PassFails(store.failing, order[i])
      invariant totalInserted == Inserted(questions, order[..k])
    {
      var stepOk, added := DistributeNext(store, questions, order, groups, k, old(store.log));
      if !stepOk {
        assert order[k] in order;
        ProgressDone(store.failing, questions, order, old(store.log), store.log, store.collections);
        return false, totalInserted;
      }
      InsertedNext(questions, order, k);
      totalInserted := totalInserted + added;
      k := k + 1;
    }
    assert order[..k] == order;
    ProgressDone(store.failing, questions, order, old(store.log), store.log, store.collections);
    LoopComplete(store.failing, questions, order, store.collections);
  }

  /** `seedDatabase` from the clearing step on. The exit code is 0 after a
      complete run and 1 when a store call threw. */
  method SeedDatabase(store: Store, questions: seq<QuizQuestion>) returns (exitCode: int, totalInserted: nat)
    requires store.Valid()
    modifies store`collections, store`log
    ensures store.Valid()
    ensures exitCode == 0 || exitCode == 1
    ensures exitCode == 0 <==> SeedingSucceeds(store.failing, questions)
    ensures exitCode == 0 ==> totalInserted == SeedTotal(questions)
    ensures exitCode == 0 ==> forall c: Category :: store.collections[c] == Seeded(questions, c)
    // what a run that stops early has done: all five clears are issued,
    // and then the passes up to the first one whose insert throws
    ensures var cleared := forall c: Category :: Clear(c) !in store.failing;
      store.log == old(store.log) + ClearCalls + (if cleared then LoopCalls(store.failing, Phases(questions)) else [])
    ensures forall c: Category ::
      store.collections[c] ==
        if Clear(c) in store.failing then old(store.collections)[c]
        else if exists d: Category :: Clear(d) in store.failing then []
        else LoopAppends(store.failing, questions, Phases(questions), c)
  {
    exitCode, totalInserted := 0, 0;
    var cleared := ClearAll(store);
    if !cleared {
      exitCode := 1;
      return;
    }
    var order, groups := GroupByPhase(questions);
    var ok;
    ok, totalInserted := DistributeAll(store, questions, order, groups);
    if !ok {
      exitCode := 1;
    }
  }
}
