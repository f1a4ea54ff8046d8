/** The comparison report of evaluation/comparison_evaluator.py: picking the
    best configuration by a weighted score, the recommendation rules, and
    the improvements over the baseline (the first configuration). The
    result dictionaries are shared objects that `find_best_config` updates
    in place, so the list of results is an array. Rounding to three places
    and `:.3f` formatting are parameters. */
module ComparisonEvaluator {
  import opened Wrappers
  import opened Errors

  /** The three dictionaries `evaluate_single_configuration` returns: the
      scores, "All questions failed" (keyed `config`), and a failed RAGAS
      evaluation. Only the scores have no "error" key. */
  datatype ConfigResult =
    | Scored(configName: string, retrieverType: string, topK: int,
             faithfulness: real, contextPrecision: real, contextRecall: real, overallScore: Option<real>)
    | NoQuestions(config: string)
    | EvalFailed(configName: string, error: string, retrieverType: string, topK: int)

  predicate IsValid(r: ConfigResult) {
    r.Scored?
  }

  // ---------------------------------------------------------------------
  // sequence helpers

  function Filter<T>(xs: seq<T>, p: T -> bool): (r: seq<T>)
    ensures |r| <= |xs|
    ensures forall k :: 0 <= k < |r| ==> p(r[k])
  {
    if xs == [] then [] else
    Filter(xs[..|xs| - 1], p) + (if p(xs[|xs| - 1]) then [xs[|xs| - 1]] else [])
  }

  lemma FilterSnoc<T>(xs: seq<T>, x: T, p: T -> bool)
    ensures Filter(xs + [x], p) == Filter(xs, p) + (if p(x) then [x] else [])
  {
    assert (xs + [x])[..|xs|] == xs;
  }

  /** The filter is empty exactly when no element passes. */
  lemma {:induction false} FilterEmpty<T>(xs: seq<T>, p: T -> bool)
    ensures Filter(xs, p) == [] <==> forall k :: 0 <= k < |xs| ==> !p(xs[k])
    decreases |xs|
  {
    if xs != [] {
      FilterEmpty(xs[..|xs| - 1], p);
      assert forall k :: 0 <= k < |xs| - 1 ==> xs[..|xs| - 1][k] == xs[k];
    }
  }

  /** Every element the filter keeps comes from the input. */
  lemma {:induction false} FilterFrom<T>(xs: seq<T>, p: T -> bool)
    ensures forall k :: 0 <= k < |Filter(xs, p)| ==> Filter(xs, p)[k] in xs
    decreases |xs|
  {
    if xs != [] {
      FilterFrom(xs[..|xs| - 1], p);
      assert forall y :: y in xs[..|xs| - 1] ==> y in xs;
    }
  }

  function MapSeq<T, U>(xs: seq<T>, f: T --> U): (r: seq<U>)
    requires forall k :: 0 <= k < |xs| ==> f.requires(xs[k])
    ensures |r| == |xs| && forall k :: 0 <= k < |xs| ==> r[k] == f(xs[k])
  {
    seq(|xs|, k requires 0 <= k < |xs| => f(xs[k]))
  }

  // ---------------------------------------------------------------------
  // find_best_config

  /** 0.4 faithfulness + 0.4 context recall + 0.2 context precision. */
  function Weighted(r: ConfigResult): real
    requires r.Scored?
  {
    r.faithfulness * 0.4 + r.contextRecall * 0.4 + r.contextPrecision * 0.2
  }

  /** The loop's state after a prefix: the best score so far (starting at
      -1) and where it was found. */
  datatype Choice = Choice(score: real, index: Option<nat>)

  function Scan(rs: seq<ConfigResult>): (c: Choice)
    ensures c.index.Some? ==> c.index.value < |rs| && rs[c.index.value].Scored?
  {
    if rs == [] then Choice(-1.0, None)
    else
      var n := |rs| - 1;
      var c := Scan(rs[..n]);
      if rs[n].Scored? && Weighted(rs[n]) > c.score then Choice(Weighted(rs[n]), Some(n)) else c
  }

  /** The scan finds the first valid result of greatest weighted score, if
      that score beats the starting -1; otherwise it finds nothing. */
  lemma {:induction false} ScanIsFirstMaximum(rs: seq<ConfigResult>)
    ensures var c := Scan(rs);
            && (c.index.None? ==> c.score == -1.0)
            && (c.index.None? <==> forall j :: 0 <= j < |rs| && rs[j].Scored? ==> Weighted(rs[j]) <= -1.0)
            && (c.index.Some? ==>
                  var i := c.index.value;
                  && rs[i].Scored? && c.score == Weighted(rs[i]) && c.score > -1.0
                  && (forall j :: 0 <= j < |rs| && rs[j].Scored? ==> Weighted(rs[j]) <= c.score)
                  && (forall j :: 0 <= j < i && rs[j].Scored? ==> Weighted(rs[j]) < c.score))
    decreases |rs|
  {
    if rs != [] {
      var n := |rs| - 1;
      ScanIsFirstMaximum(rs[..n]);
      assert forall j :: 0 <= j < n ==> rs[..n][j] == rs[j];
    }
  }

  /** What `find_best_config` returns: `{}` when every result has an error,
      None when no weighted score beats -1, else the chosen result. */
  datatype Best = NoValidResults | NoneAboveStart | Best(index: nat, score: real)

  predicate AnyValid(rs: seq<ConfigResult>) {
    exists j :: 0 <= j < |rs| && rs[j].Scored?
  }

  function BestOf(rs: seq<ConfigResult>): (b: Best)
    ensures b.Best? ==> b.index < |rs| && rs[b.index].Scored?
  {
    if !AnyValid(rs) then NoValidResults
    else match Scan(rs).index
      case None => NoneAboveStart
      case Some(i) => Best(i, Scan(rs).score)
  }

  /** `{}` exactly when every result has an error; None exactly when some
      result is valid but none scores above -1; otherwise the first valid
      result of greatest weighted score. */
  lemma BestOfChoosesFirstMaximum(rs: seq<ConfigResult>)
    ensures BestOf(rs).NoValidResults? <==> forall j :: 0 <= j < |rs| ==> !rs[j].Scored?
    ensures BestOf(rs).NoneAboveStart? <==>
              AnyValid(rs) && forall j :: 0 <= j < |rs| && rs[j].Scored? ==> Weighted(rs[j]) <= -1.0
    ensures BestOf(rs).Best? ==>
              var i := BestOf(rs).index;
              && BestOf(rs).score == Weighted(rs[i])
              && (forall j :: 0 <= j < |rs| && rs[j].Scored? ==> Weighted(rs[j]) <= Weighted(rs[i]))
              && (forall j :: 0 <= j < i && rs[j].Scored? ==> Weighted(rs[j]) < Weighted(rs[i]))
  {
    ScanIsFirstMaximum(rs);
  }

  /** The results after `find_best_config`: the chosen result carries its
      rounded score as `overall_score`; nothing else changes. */
  function Marked(rs: seq<ConfigResult>, round: real -> real): (ms: seq<ConfigResult>)
    ensures |ms| == |rs|
  {
    match BestOf(rs)
    case Best(i, s) => rs[i := rs[i].(overallScore := Some(round(s)))]
    case _ => rs
  }

  /** Setting `overall_score` does not change what the scan sees. */
  lemma {:induction false} ScanIgnoresOverall(rs: seq<ConfigResult>, i: nat, x: Option<real>)
    requires i < |rs| && rs[i].Scored?
    ensures Scan(rs[i := rs[i].(overallScore := x)]) == Scan(rs)
    decreases |rs|
  {
    var ms := rs[i := rs[i].(overallScore := x)];
    if rs != [] {
      var n := |rs| - 1;
      if i < n {
        ScanIgnoresOverall(rs[..n], i, x);
        assert ms[..n] == rs[..n][i := rs[i].(overallScore := x)];
      } else {
        assert ms[..n] == rs[..n];
      }
    }
  }

  /** Calling `find_best_config` again on its own output chooses the same
      result and leaves the results as they are. */
  lemma MarkedIdempotent(rs: seq<ConfigResult>, round: real -> real)
    ensures BestOf(Marked(rs, round)) == BestOf(rs)
    ensures Marked(Marked(rs, round), round) == Marked(rs, round)
  {
    if BestOf(rs).Best? {
      var i := BestOf(rs).index;
      ScanIgnoresOverall(rs, i, Some(round(BestOf(rs).score)));
      var ms := Marked(rs, round);
      assert ms[i].Scored?;
      assert AnyValid(ms);
    }
  }

  /** `find_best_config(results)`. */
  method FindBestConfig(results: array<ConfigResult>, round: real -> real) returns (best: Best)
    modifies results
    ensures best == BestOf(old(results[..]))
    ensures results[..] == Marked(old(results[..]), round)
  {
    var anyValid := false;
    var bestScore := -1.0;
    var bestIndex: Option<nat> := None;
    var i := 0;
    while i < results.Length
      invariant 0 <= i <= results.Length
      invariant Choice(bestScore, bestIndex) == Scan(results[..i])
      invariant anyValid <==> AnyValid(results[..i])
    {
      assert results[..i + 1][..i] == results[..i];
      var r := results[i];
      if r.Scored? {
        anyValid := true;
        assert results[..i + 1][i].Scored?;
        var score := r.faithfulness * 0.4 + r.contextRecall * 0.4 + r.contextPrecision * 0.2;
        if score > bestScore {
          bestScore := score;
          bestIndex := Some(i);
        }
      } else {
        assert AnyValid(results[..i + 1]) ==> AnyValid(results[..i]) by {
          if AnyValid(results[..i + 1]) {
            var j :| 0 <= j < i + 1 && results[..i + 1][j].Scored?;
            assert results[..i][j] == results[j];
          }
        }
      }
      i := i + 1;
    }
    assert results[..i] == results[..];
    if !anyValid {
      return NoValidResults;
    }
    if bestIndex.None? {
      return NoneAboveStart;
    }
    var k := bestIndex.value;
    results[k] := results[k].(overallScore := Some(round(bestScore)));
    return Best(k, bestScore);
  }

  // ---------------------------------------------------------------------
  // generate_recommendations

  /** The name the baseline is compared by (`config_name`), absent for the
      "All questions failed" dictionary. */
  function ConfigName(r: ConfigResult): Option<string> {
    match r
    case Scored(n, _, _, _, _, _, _) => Some(n)
    case NoQuestions(_) => None
    case EvalFailed(n, _, _, _) => Some(n)
  }

  function TopKNote(b: ConfigResult, r: ConfigResult, fmt3: real -> string): string
    requires b.Scored? && r.Scored?
  {
    "\U{2713} Increasing top_k from " + IntText(b.topK) + " to " + IntText(r.topK)
    + " improved Context Recall by " + fmt3(r.contextRecall - b.contextRecall)
  }

  function IntText(i: int): string {
    if i < 0 then "-" + NatText(-i) else NatText(i)
  }

  function NatText(n: nat): string {
    if n < 10 then ["0123456789"[n]] else NatText(n / 10) + ["0123456789"[n % 10]]
  }

  /** `TopKNote` for a fixed scored baseline. */
  function NoteFrom(b: ConfigResult, fmt3: real -> string): ConfigResult --> string
    requires b.Scored?
  {
    (r: ConfigResult) requires r.Scored? => TopKNote(b, r, fmt3)
  }

  /** A later valid result with the baseline's retriever and a larger
      `top_k`. */
  function LargerTopK(b: ConfigResult): ConfigResult -> bool
    requires !b.NoQuestions?
  {
    (r: ConfigResult) => r.Scored? && r.retrieverType == b.retrieverType && r.topK > b.topK
  }

  /** ... whose recall gain over a scored baseline exceeds 0.1. */
  function RecallGain(b: ConfigResult): ConfigResult -> bool
    requires b.Scored?
  {
    (r: ConfigResult) => LargerTopK(b)(r) && r.contextRecall - b.contextRecall > 0.1
  }

  /** The top_k notes for a scored baseline: the note of each later result
      with enough recall gain. */
  function GainNotes(b: ConfigResult, rest: seq<ConfigResult>, fmt3: real -> string): seq<string>
    requires b.Scored?
  {
    GainedAreScored(b, rest, fmt3);
    MapSeq(Filter(rest, RecallGain(b)), NoteFrom(b, fmt3))
  }

  lemma GainedAreScored(b: ConfigResult, rest: seq<ConfigResult>, fmt3: real -> string)
    requires b.Scored?
    ensures forall k :: 0 <= k < |Filter(rest, RecallGain(b))| ==> NoteFrom(b, fmt3).requires(Filter(rest, RecallGain(b))[k])
  {
    var f := Filter(rest, RecallGain(b));
    forall k | 0 <= k < |f|
      ensures NoteFrom(b, fmt3).requires(f[k])
    {
      assert RecallGain(b)(f[k]);
      assert LargerTopK(b)(f[k]);
      assert f[k].Scored?;
    }
  }

  /** The top_k notes for baseline `b` and the results after it: one per
      valid later result with the same retriever, a larger `top_k` and a
      recall gain above 0.1, in order. A baseline with an error fails with
      KeyError at the first key it lacks, once a later result reaches it. */
  function TopKNotes(b: ConfigResult, rest: seq<ConfigResult>, fmt3: real -> string): Result<seq<string>, Error> {
    if Filter(rest, IsValid) == [] then Success([])
    else if b.NoQuestions? then Failure(Error(KeyError, "'retriever_type'"))
    else if Filter(rest, LargerTopK(b)) == [] then Success([])
    else if !b.Scored? then Failure(Error(KeyError, "'context_recall'"))
    else Success(GainNotes(b, rest, fmt3))
  }

  /** The top_k loop of `generate_recommendations`. */
  method TopKLoop(b: ConfigResult, rest: seq<ConfigResult>, fmt3: real -> string) returns (r: Result<seq<string>, Error>)
    ensures r == TopKNotes(b, rest, fmt3)
  {
    var notes: seq<string> := [];
    var i := 0;
    while i < |rest|
      invariant 0 <= i <= |rest|
      invariant !b.Scored? ==> notes == []
      invariant b.NoQuestions? ==> Filter(rest[..i], IsValid) == []
      invariant b.EvalFailed? ==> Filter(rest[..i], LargerTopK(b)) == []
      invariant b.Scored? ==> notes == GainNotes(b, rest[..i], fmt3)
    {
      var x := rest[i];
      assert rest[..i + 1] == rest[..i] + [x];
      FilterSnoc(rest[..i], x, IsValid);
      if !b.NoQuestions? {
        FilterSnoc(rest[..i], x, LargerTopK(b));
      }
      if b.Scored? {
        FilterSnoc(rest[..i], x, RecallGain(b));
      }
      if x.Scored? {
        if b.NoQuestions? {
          NoneBefore(rest, i, IsValid);
          return Failure(Error(KeyError, "'retriever_type'"));
        }
        if x.retrieverType == b.retrieverType && x.topK > b.topK {
          if !b.Scored? {
            NoneBefore(rest, i, IsValid);
            NoneBefore(rest, i, LargerTopK(b));
            return Failure(Error(KeyError, "'context_recall'"));
          }
          if x.contextRecall - b.contextRecall > 0.1 {
            notes := notes + [TopKNote(b, x, fmt3)];
          }
        }
      }
      i := i + 1;
    }
    assert rest[..i] == rest;
    TopKNotesOnceThrough(b, rest, fmt3);
    return Success(notes);
  }

  /** The outcome of the top_k notes when no later result reaches a key the
      baseline lacks. */
  lemma TopKNotesOnceThrough(b: ConfigResult, rest: seq<ConfigResult>, fmt3: real -> string)
    ensures b.NoQuestions? && Filter(rest, IsValid) == [] ==> TopKNotes(b, rest, fmt3) == Success([])
    ensures b.EvalFailed? && Filter(rest, LargerTopK(b)) == [] ==> TopKNotes(b, rest, fmt3) == Success([])
    ensures b.Scored? ==> TopKNotes(b, rest, fmt3) == Success(GainNotes(b, rest, fmt3))
  {
    if b.Scored? {
      FilterEmpty(rest, IsValid);
      FilterEmpty(rest, LargerTopK(b));
      FilterEmpty(rest, RecallGain(b));
      forall k | 0 <= k < |rest|
        ensures RecallGain(b)(rest[k]) ==> LargerTopK(b)(rest[k]) && IsValid(rest[k])
      {
      }
    }
  }

  /** If nothing before position i passes and the element at i does, the
      filter of the whole sequence is not empty. */
  lemma NoneBefore<T>(xs: seq<T>, i: nat, p: T -> bool)
    requires i < |xs| && p(xs[i])
    ensures Filter(xs, p) != []
  {
    FilterEmpty(xs, p);
  }

  predicate IsHybrid(r: ConfigResult) {
    r.Scored? && r.retrieverType == "hybrid"
  }

  function Recall(r: ConfigResult): real {
    if r.Scored? then r.contextRecall else 0.0
  }

  /** `max` of a non-empty list of recalls. */
  function MaxOf(xs: seq<real>): (m: real)
    requires xs != []
    ensures m in xs && forall k :: 0 <= k < |xs| ==> xs[k] <= m
  {
    if |xs| == 1 then xs[0]
    else
      var rest := MaxOf(xs[1..]);
      assert forall k :: 1 <= k < |xs| ==> xs[k] == xs[1..][k - 1];
      if xs[0] >= rest then xs[0] else rest
  }

  function HybridNote(recall: real, fmt3: real -> string): string {
    "\U{2713} Hybrid retriever improved Context Recall to " + fmt3(recall)
  }

  /** The hybrid note: present when the best recall among the valid hybrid
      results beats the baseline's. */
  function HybridNotes(b: ConfigResult, rs: seq<ConfigResult>, fmt3: real -> string): Result<seq<string>, Error> {
    var hybrids := Filter(rs, IsHybrid);
    if hybrids == [] then Success([])
    else if !b.Scored? then Failure(Error(KeyError, "'context_recall'"))
    else
      var best := MaxOf(MapSeq(hybrids, Recall));
      if best > b.contextRecall then Success([HybridNote(best, fmt3)]) else Success([])
  }

  /** The hybrid note appears iff some valid hybrid result has a higher
      recall than a scored baseline. */
  lemma HybridNoteIff(b: ConfigResult, rs: seq<ConfigResult>, fmt3: real -> string)
    requires b.Scored?
    ensures HybridNotes(b, rs, fmt3).Success?
    ensures HybridNotes(b, rs, fmt3).value != [] <==>
              exists j :: 0 <= j < |rs| && IsHybrid(rs[j]) && rs[j].contextRecall > b.contextRecall
  {
    var hybrids := Filter(rs, IsHybrid);
    FilterEmpty(rs, IsHybrid);
    FilterFrom(rs, IsHybrid);
    if hybrids != [] {
      var recalls := MapSeq(hybrids, Recall);
      var best := MaxOf(recalls);
      if exists j :: 0 <= j < |rs| && IsHybrid(rs[j]) && rs[j].contextRecall > b.contextRecall {
        var j :| 0 <= j < |rs| && IsHybrid(rs[j]) && rs[j].contextRecall > b.contextRecall;
        FilterKeeps(rs, IsHybrid, j);
        var k :| 0 <= k < |hybrids| && hybrids[k] == rs[j];
        assert recalls[k] == rs[j].contextRecall;
      }
      if best > b.contextRecall {
        var k :| 0 <= k < |recalls| && recalls[k] == best;
        assert hybrids[k] in rs;
        var j :| 0 <= j < |rs| && rs[j] == hybrids[k];
        assert IsHybrid(rs[j]);
      }
    }
  }

  /** An element that passes is kept. */
  lemma {:induction false} FilterKeeps<T>(xs: seq<T>, p: T -> bool, j: nat)
    requires j < |xs| && p(xs[j])
    ensures exists k :: 0 <= k < |Filter(xs, p)| && Filter(xs, p)[k] == xs[j]
    decreases |xs|
  {
    var n := |xs| - 1;
    if j == n {
      var k := |Filter(xs[..n], p)|;
      assert Filter(xs, p)[k] == xs[j];
    } else {
      FilterKeeps(xs[..n], p, j);
      var k :| 0 <= k < |Filter(xs[..n], p)| && Filter(xs[..n], p)[k] == xs[..n][j];
      assert Filter(xs, p)[k] == xs[j];
    }
  }

  function RecommendedNote(name: string): string {
    "\U{2713} RECOMMENDED: Use " + name + " for best overall performance"
  }

  /** The general note: present when there is a best result and its name
      differs from the baseline's. */
  function RecommendedNotes(b: ConfigResult, rs: seq<ConfigResult>): (r: Result<seq<string>, Error>)
    ensures r.Success? && r.value != [] <==>
              BestOf(rs).Best? && ConfigName(b).Some? && rs[BestOf(rs).index].configName != ConfigName(b).value
  {
    match BestOf(rs)
    case Best(i, _) =>
      (match ConfigName(b)
       case None => Failure(Error(KeyError, "'config_name'"))
       case Some(n) =>
         assert rs[i].Scored? by { ScanIsFirstMaximum(rs); }
         if rs[i].configName != n then Success([RecommendedNote(rs[i].configName)]) else Success([]))
    case _ => Success([])
  }

  /** The part of `generate_recommendations` before it calls
      `find_best_config`. */
  function NotesBeforeBest(rs: seq<ConfigResult>, fmt3: real -> string): Result<seq<string>, Error>
    requires |rs| >= 2
  {
    var topK :- TopKNotes(rs[0], rs[1..], fmt3);
    var hybrid :- HybridNotes(rs[0], rs, fmt3);
    Success(topK + hybrid)
  }

  /** `generate_recommendations(results)`: no notes for fewer than two
      results; otherwise the top_k notes, the hybrid note, then the general
      note, in that order. */
  function Recommendations(rs: seq<ConfigResult>, fmt3: real -> string): Result<seq<string>, Error> {
    if |rs| < 2 then Success([])
    else
      var before :- NotesBeforeBest(rs, fmt3);
      var general :- RecommendedNotes(rs[0], rs);
      Success(before + general)
  }

  /** `generate_recommendations(results)`; it calls `find_best_config`, so
      the chosen result is marked once the first two kinds of notes are
      through. */
  method GenerateRecommendations(results: array<ConfigResult>, fmt3: real -> string, round: real -> real)
    returns (r: Result<seq<string>, Error>)
    modifies results
    ensures r == Recommendations(old(results[..]), fmt3)
    ensures results.Length >= 2 && NotesBeforeBest(old(results[..]), fmt3).Success? ==>
              results[..] == Marked(old(results[..]), round)
    ensures !(results.Length >= 2 && NotesBeforeBest(old(results[..]), fmt3).Success?) ==>
              results[..] == old(results[..])
  {
    if results.Length < 2 {
      return Success([]);
    }
    var rs := results[..];
    var baseline := results[0];
    var topK := TopKLoop(baseline, rs[1..], fmt3);
    if topK.Failure? {
      return Failure(topK.error);
    }
    var hybrids := Filter(rs, IsHybrid);
    var hybrid: seq<string> := [];
    if hybrids != [] {
      if !baseline.Scored? {
        return Failure(Error(KeyError, "'context_recall'"));
      }
      var bestRecall := MaxOf(MapSeq(hybrids, Recall));
      if bestRecall > baseline.contextRecall {
        hybrid := [HybridNote(bestRecall, fmt3)];
      }
    }
    var best := FindBestConfig(results, round);
    var general: seq<string> := [];
    if best.Best? {
      var name := ConfigName(baseline);
      if name.None? {
        return Failure(Error(KeyError, "'config_name'"));
      }
      ScanIsFirstMaximum(rs);
      if rs[best.index].configName != name.value {
        general := [RecommendedNote(rs[best.index].configName)];
      }
    }
    return Success(topK.value + hybrid + general);
  }

  // ---------------------------------------------------------------------
  // create_comparison_report

  datatype Improvement = Improvement(config: string, faithfulnessChange: real, precisionChange: real, recallChange: real)

  /** The change of result `r` over the baseline `b`. */
  function Diff(b: ConfigResult, r: ConfigResult): Improvement
    requires b.Scored? && r.Scored?
  {
    Improvement(r.configName, r.faithfulness - b.faithfulness, r.contextPrecision - b.contextPrecision,
                r.contextRecall - b.contextRecall)
  }

  /** `Diff` for a fixed scored baseline. */
  function DiffFrom(b: ConfigResult): ConfigResult --> Improvement
    requires b.Scored?
  {
    (r: ConfigResult) requires r.Scored? => Diff(b, r)
  }

  /** One improvement per valid result after the baseline, in order, each
      the difference against the baseline; a baseline with an error has no
      scores, so any valid later result raises KeyError. */
  function Improvements(b: ConfigResult, rest: seq<ConfigResult>): (r: Result<seq<Improvement>, Error>)
    ensures r.Success? ==> |r.value| == |Filter(rest, IsValid)|
  {
    var valid := Filter(rest, IsValid);
    if valid == [] then Success([])
    else if !b.Scored? then Failure(Error(KeyError, "'faithfulness'"))
    else Success(MapSeq(valid, DiffFrom(b)))
  }

  /** The improvements loop of `create_comparison_report`. */
  method CollectImprovements(b: ConfigResult, rest: seq<ConfigResult>) returns (r: Result<seq<Improvement>, Error>)
    ensures r == Improvements(b, rest)
  {
    var improvements: seq<Improvement> := [];
    var i := 0;
    while i < |rest|
      invariant 0 <= i <= |rest|
      invariant !b.Scored? ==> Filter(rest[..i], IsValid) == [] && improvements == []
      invariant b.Scored? ==> improvements == MapSeq(Filter(rest[..i], IsValid), DiffFrom(b))
    {
      var x := rest[i];
      assert rest[..i + 1] == rest[..i] + [x];
      FilterSnoc(rest[..i], x, IsValid);
      if x.Scored? {
        if !b.Scored? {
          NoneBefore(rest, i, IsValid);
          return Failure(Error(KeyError, "'faithfulness'"));
        }
        improvements := improvements + [Diff(b, x)];
      }
      i := i + 1;
    }
    assert rest[..i] == rest;
    return Success(improvements);
  }

  /** The report (its study date is left out). `best_config` points into
      `all_results`, which holds the results as updated. */
  datatype Report = Report(baseline: ConfigResult, allResults: seq<ConfigResult>, improvements: seq<Improvement>,
                           bestConfig: Best, recommendations: seq<string>)

  /** `create_comparison_report(results)`: an empty list fails at
      `results[0]`. */
  method CreateComparisonReport(results: array<ConfigResult>, fmt3: real -> string, round: real -> real)
    returns (r: Result<Report, Error>)
    modifies results
    ensures results.Length == 0 ==> r == Failure(Error(IndexError, "list index out of range"))
    ensures results.Length > 0 && Improvements(old(results[0]), old(results[1..])).Failure? ==>
              r == Failure(Improvements(old(results[0]), old(results[1..])).error) && results[..] == old(results[..])
    ensures results.Length > 0 && Improvements(old(results[0]), old(results[1..])).Success? ==>
              var marked := Marked(old(results[..]), round);
              && results[..] == marked
              && var recs := Recommendations(marked, fmt3);
              && (recs.Failure? ==> r == Failure(recs.error))
              && (recs.Success? ==>
                    r == Success(Report(marked[0], marked, Improvements(old(results[0]), old(results[1..])).value,
                                        BestOf(old(results[..])), recs.value)))
  {
    if results.Length == 0 {
      return Failure(Error(IndexError, "list index out of range"));
    }
    var improvements := CollectImprovements(results[0], results[1..]);
    if improvements.Failure? {
      return Failure(improvements.error);
    }
    ghost var original := results[..];
    var best := FindBestConfig(results, round);
    ghost var marked := results[..];
    var recs := GenerateRecommendations(results, fmt3, round);
    MarkedIdempotent(original, round);
    if recs.Failure? {
      return Failure(recs.error);
    }
    return Success(Report(results[0], results[..], improvements.value, best, recs.value));
  }
}
