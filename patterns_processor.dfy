/**
 * The annotation processor: for one round it writes the Singleton file of
 * every `@Singleton` class, then the builder and built files of every
 * `@Builder` class, through a Filer that may fail on any write. A failed
 * write becomes one warning and processing goes on; an exception from the
 * Builder generator is not caught and ends the round.
 */
module PatternsProcessor {
  import opened Wrappers
  import opened Elements
  import opened Poet
  import Utils
  import SingletonGenerator
  import BuilderGenerator
  import opened JavaStrings

  const SingletonAnnotation := "br.me.patterns.annotation.Singleton"
  const BuilderAnnotation := "br.me.patterns.annotation.Builder"

  /** `getSupportedAnnotationTypes`: the canonical names of the two annotations, and nothing else. */
  function SupportedAnnotationTypes(): (r: set<string>)
    ensures |r| == 2
    ensures forall a :: a in r <==> a == SingletonAnnotation || a == BuilderAnnotation
  {
    {SingletonAnnotation, BuilderAnnotation}
  }

  /** The classes of one round annotated with each annotation, in the order the round lists them. */
  datatype RoundEnvironment = RoundEnvironment(singletons: seq<TypeElement>, builders: seq<TypeElement>)

  /** Every annotated class lies inside a package (the compiler guarantees it). */
  predicate WellFormed(round: RoundEnvironment) {
    (forall i :: 0 <= i < |round.singletons| ==> Utils.ReachesPackage(round.singletons[i].element)) &&
    (forall i :: 0 <= i < |round.builders| ==> Utils.ReachesPackage(round.builders[i].element))
  }

  /** The messages the processor prints: the NOTE with the number of annotations, a WARNING per failed write. */
  datatype Diagnostic = Note(annotationCount: nat) | Warning(attempt: nat)

  /** The Singleton files, one per class, in order. */
  function SingletonFiles(ss: seq<TypeElement>): (r: seq<JavaFile>)
    requires forall i :: 0 <= i < |ss| ==> Utils.ReachesPackage(ss[i].element)
    ensures |r| == |ss| && forall i :: 0 <= i < |ss| ==> r[i] == SingletonGenerator.Generate(ss[i])
  {
    if ss == [] then [] else SingletonFiles(ss[..|ss| - 1]) + [SingletonGenerator.Generate(ss[|ss| - 1])]
  }

  /** The files a run writes, and the generation error that stopped it, if any. */
  datatype Plan = Plan(files: seq<JavaFile>, failure: Option<GenerationError>)

  /** What one call of the Builder generator gives: the two files, or the exception it throws. */
  type Outcome = Result<seq<JavaFile>, GenerationError>

  /** The outcome of generating each Builder class, in order. */
  function Outcomes(bs: seq<TypeElement>): (r: seq<Outcome>)
    requires forall i :: 0 <= i < |bs| ==> Utils.ReachesPackage(bs[i].element)
    ensures |r| == |bs|
  {
    if bs == [] then [] else Outcomes(bs[..|bs| - 1]) + [BuilderGenerator.GenerateSpec(bs[|bs| - 1])]
  }

  /** The Builder loop over given outcomes: the files of each in order, until the first exception. */
  function Run(os: seq<Outcome>): Plan {
    if os == [] then Plan([], None)
    else
      var p := Run(os[..|os| - 1]);
      if p.failure.Some? then p
      else match os[|os| - 1]
        case Success(fs) => Plan(p.files + fs, None)
        case Failure(e) => Plan(p.files, Some(e))
  }

  /** The Builder loop of a round. */
  function BuilderRun(bs: seq<TypeElement>): Plan
    requires forall i :: 0 <= i < |bs| ==> Utils.ReachesPackage(bs[i].element)
  {
    Run(Outcomes(bs))
  }

  /** `processAnnotations`: all Singleton files first, then the Builder loop. */
  function RoundPlan(round: RoundEnvironment): Plan
    requires WellFormed(round)
  {
    var b := BuilderRun(round.builders);
    Plan(SingletonFiles(round.singletons) + b.files, b.failure)
  }

  /** The files the Filer accepts when the attempts numbered from `base` on write `files`. */
  function Written(files: seq<JavaFile>, base: nat, accepts: nat -> bool): seq<JavaFile> {
    if files == [] then []
    else
      var k := base + |files| - 1;
      Written(files[..|files| - 1], base, accepts) + (if accepts(k) then [files[|files| - 1]] else [])
  }

  /** The warnings when the attempts numbered from `base` on write `files`: one per refused attempt, in order. */
  function Warnings(files: seq<JavaFile>, base: nat, accepts: nat -> bool): seq<Diagnostic> {
    if files == [] then []
    else
      var k := base + |files| - 1;
      Warnings(files[..|files| - 1], base, accepts) + (if accepts(k) then [] else [Warning(k)])
  }

  /**
   * The annotation processor. `filer` says which write attempts succeed
   * (attempts are numbered from 0 over the processor's life); `attempts`,
   * `written` and `messages` record the writes tried, the files persisted
   * and the diagnostics printed.
   */
  class Processor {
    const filer: nat -> bool
    var attempts: seq<JavaFile>
    var written: seq<JavaFile>
    var messages: seq<Diagnostic>

    constructor (filer: nat -> bool)
      ensures this.filer == filer && attempts == [] && written == [] && messages == []
    {
      this.filer := filer;
      attempts := [];
      written := [];
      messages := [];
    }

    /** `writeFile`: one attempt; a refused one is reported as one warning and goes no further. */
    method WriteFile(f: JavaFile)
      modifies this`attempts, this`written, this`messages
      ensures attempts == old(attempts) + [f]
      ensures written == old(written) + Written([f], |old(attempts)|, filer)
      ensures messages == old(messages) + Warnings([f], |old(attempts)|, filer)
    {
      var k := |attempts|;
      attempts := attempts + [f];
      if filer(k) {
        written := written + [f];
      } else {
        messages := messages + [Warning(k)];
      }
    }

    /** The loop over the files one Builder class produced. */
    method WriteFiles(files: seq<JavaFile>)
      modifies this`attempts, this`written, this`messages
      ensures attempts == old(attempts) + files
      ensures written == old(written) + Written(files, |old(attempts)|, filer)
      ensures messages == old(messages) + Warnings(files, |old(attempts)|, filer)
    {
      for j := 0 to |files|
        invariant attempts == old(attempts) + files[..j]
        invariant written == old(written) + Written(files[..j], |old(attempts)|, filer)
        invariant messages == old(messages) + Warnings(files[..j], |old(attempts)|, filer)
      {
        ghost var a1, w1, m1 := attempts, written, messages;
        WriteFile(files[j]);
        Then(old(attempts), old(written), old(messages), a1, w1, m1, attempts, written, messages,
             files[..j], [files[j]], |old(attempts)|, filer);
        assert files[..j + 1] == files[..j] + [files[j]];
      }
      assert files[..|files|] == files;
    }

    /** The first loop of `processAnnotations`: generate and write each Singleton file in turn. */
    method WriteSingletons(ss: seq<TypeElement>)
      requires forall i :: 0 <= i < |ss| ==> Utils.ReachesPackage(ss[i].element)
      modifies this`attempts, this`written, this`messages
      ensures attempts == old(attempts) + SingletonFiles(ss)
      ensures written == old(written) + Written(SingletonFiles(ss), |old(attempts)|, filer)
      ensures messages == old(messages) + Warnings(SingletonFiles(ss), |old(attempts)|, filer)
    {
      var base := |attempts|;
      for i := 0 to |ss|
        invariant attempts == old(attempts) + SingletonFiles(ss[..i])
        invariant written == old(written) + Written(SingletonFiles(ss[..i]), base, filer)
        invariant messages == old(messages) + Warnings(SingletonFiles(ss[..i]), base, filer)
      {
        var f := SingletonGenerator.Generate(ss[i]);
        ghost var before := SingletonFiles(ss[..i]);
        SingletonFilesStep(ss, i);
        ghost var a1, w1, m1 := attempts, written, messages;
        WriteFile(f);
        Then(old(attempts), old(written), old(messages), a1, w1, m1, attempts, written, messages,
             before, [f], base, filer);
      }
      assert ss[..|ss|] == ss;
    }

    /**
     * The second loop of `processAnnotations`: generate each Builder class's
     * files and write them, until a class's generation throws.
     */
    method WriteBuilders(bs: seq<TypeElement>) returns (r: Option<GenerationError>)
      requires forall i :: 0 <= i < |bs| ==> Utils.ReachesPackage(bs[i].element)
      modifies this`attempts, this`written, this`messages
      ensures var run := BuilderRun(bs);
        r == run.failure &&
        attempts == old(attempts) + run.files &&
        written == old(written) + Written(run.files, |old(attempts)|, filer) &&
        messages == old(messages) + Warnings(run.files, |old(attempts)|, filer)
    {
      var base := |attempts|;
      for i := 0 to |bs|
        invariant BuilderRun(bs[..i]).failure == None
        invariant attempts == old(attempts) + BuilderRun(bs[..i]).files
        invariant written == old(written) + Written(BuilderRun(bs[..i]).files, base, filer)
        invariant messages == old(messages) + Warnings(BuilderRun(bs[..i]).files, base, filer)
      {
        ghost var before := BuilderRun(bs[..i]).files;
        var files := BuilderGenerator.Generate(bs[i]);
        if files.Failure? {
          BuilderRunStops(bs, i);
          return Some(files.error);
        }
        var fs := files.value;
        BuilderRunStep(bs, i);
        ghost var a1, w1, m1 := attempts, written, messages;
        WriteFiles(fs);
        Then(old(attempts), old(written), old(messages), a1, w1, m1, attempts, written, messages,
             before, fs, base, filer);
      }
      assert bs[..|bs|] == bs;
      r := None;
    }

    /**
     * `processAnnotations`: writes the planned files in order and stops with
     * the generation error when a Builder class cannot be generated.
     */
    method ProcessAnnotations(round: RoundEnvironment) returns (r: Option<GenerationError>)
      requires WellFormed(round)
      modifies this`attempts, this`written, this`messages
      ensures var plan := RoundPlan(round);
        r == plan.failure &&
        attempts == old(attempts) + plan.files &&
        written == old(written) + Written(plan.files, |old(attempts)|, filer) &&
        messages == old(messages) + Warnings(plan.files, |old(attempts)|, filer)
    {
      var base := |attempts|;
      ghost var a0, w0, m0 := attempts, written, messages;
      WriteSingletons(round.singletons);
      ghost var a1, w1, m1 := attempts, written, messages;
      r := WriteBuilders(round.builders);
      ghost var done, run := SingletonFiles(round.singletons), BuilderRun(round.builders).files;
      assert RoundPlan(round) == Plan(done + run, r);
      Then(a0, w0, m0, a1, w1, m1, attempts, written, messages, done, run, base, filer);
    }

    /**
     * `process`: with no annotation it does nothing and answers false;
     * otherwise it prints the NOTE, processes the round and answers true,
     * unless a Builder class cannot be generated, whose error ends the round.
     */
    method Process(annotations: set<string>, round: RoundEnvironment) returns (r: Result<bool, GenerationError>)
      requires WellFormed(round)
      modifies this`attempts, this`written, this`messages
      ensures annotations == {} ==>
        r == Success(false) && attempts == old(attempts) && written == old(written) && messages == old(messages)
      ensures annotations != {} ==>
        var plan := RoundPlan(round);
        (r == if plan.failure.Some? then Failure(plan.failure.value) else Success(true)) &&
        attempts == old(attempts) + plan.files &&
        written == old(written) + Written(plan.files, |old(attempts)|, filer) &&
        messages == old(messages) + [Note(|annotations|)] + Warnings(plan.files, |old(attempts)|, filer)
    {
      if |annotations| > 0 {
        messages := messages + [Note(|annotations|)];
        var failure := ProcessAnnotations(round);
        if failure.Some? {
          return Failure(failure.value);
        }
        return Success(true);
      } else {
        return Success(false);
      }
    }
  }

  // ---------------------------------------------------------------------
  // Facts about the bookkeeping
  // ---------------------------------------------------------------------

  /** Writing `a` and then `b` from the state `(a0, w0, m0)` records what writing `a + b` records. */
  lemma Then(a0: seq<JavaFile>, w0: seq<JavaFile>, m0: seq<Diagnostic>,
             a1: seq<JavaFile>, w1: seq<JavaFile>, m1: seq<Diagnostic>,
             a2: seq<JavaFile>, w2: seq<JavaFile>, m2: seq<Diagnostic>,
             a: seq<JavaFile>, b: seq<JavaFile>, base: nat, accepts: nat -> bool)
    requires base == |a0|
    requires a1 == a0 + a && w1 == w0 + Written(a, base, accepts) && m1 == m0 + Warnings(a, base, accepts)
    requires a2 == a1 + b && w2 == w1 + Written(b, |a1|, accepts) && m2 == m1 + Warnings(b, |a1|, accepts)
    ensures a2 == a0 + (a + b)
    ensures w2 == w0 + Written(a + b, base, accepts)
    ensures m2 == m0 + Warnings(a + b, base, accepts)
  {
    WrittenAppend(a, b, base, accepts);
    WarningsAppend(a, b, base, accepts);
    Assoc(a0, a, b);
    Assoc(w0, Written(a, base, accepts), Written(b, base + |a|, accepts));
    Assoc(m0, Warnings(a, base, accepts), Warnings(b, base + |a|, accepts));
  }

  lemma {:induction false} WrittenAppend(a: seq<JavaFile>, b: seq<JavaFile>, base: nat, accepts: nat -> bool)
    ensures Written(a + b, base, accepts) == Written(a, base, accepts) + Written(b, base + |a|, accepts)
    decreases |b|
  {
    if b == [] {
      assert a + b == a;
    } else {
      var b' := b[..|b| - 1];
      assert (a + b)[..|a + b| - 1] == a + b';
      assert (a + b)[|a + b| - 1] == b[|b| - 1];
      WrittenAppend(a, b', base, accepts);
      Assoc(Written(a, base, accepts), Written(b', base + |a|, accepts),
            if accepts(base + |a| + |b| - 1) then [b[|b| - 1]] else []);
    }
  }

  lemma {:induction false} WarningsAppend(a: seq<JavaFile>, b: seq<JavaFile>, base: nat, accepts: nat -> bool)
    ensures Warnings(a + b, base, accepts) == Warnings(a, base, accepts) + Warnings(b, base + |a|, accepts)
    decreases |b|
  {
    if b == [] {
      assert a + b == a;
    } else {
      var b' := b[..|b| - 1];
      assert (a + b)[..|a + b| - 1] == a + b';
      assert (a + b)[|a + b| - 1] == b[|b| - 1];
      WarningsAppend(a, b', base, accepts);
      Assoc(Warnings(a, base, accepts), Warnings(b', base + |a|, accepts),
            if accepts(base + |a| + |b| - 1) then [] else [Warning(base + |a| + |b| - 1)]);
    }
  }

  lemma SingletonFilesStep(ss: seq<TypeElement>, i: nat)
    requires forall j :: 0 <= j < |ss| ==> Utils.ReachesPackage(ss[j].element)
    requires i < |ss|
    ensures SingletonFiles(ss[..i + 1]) == SingletonFiles(ss[..i]) + [SingletonGenerator.Generate(ss[i])]
  {
    assert ss[..i + 1][..i] == ss[..i];
  }

  lemma OutcomesSnoc(bs: seq<TypeElement>, i: nat)
    requires forall j :: 0 <= j < |bs| ==> Utils.ReachesPackage(bs[j].element)
    requires i < |bs|
    ensures Outcomes(bs[..i + 1]) == Outcomes(bs[..i]) + [BuilderGenerator.GenerateSpec(bs[i])]
  {
    assert bs[..i + 1][..i] == bs[..i];
  }

  lemma {:induction false} OutcomesPrefix(bs: seq<TypeElement>, i: nat)
    requires forall j :: 0 <= j < |bs| ==> Utils.ReachesPackage(bs[j].element)
    requires i <= |bs|
    ensures Outcomes(bs[..i]) == Outcomes(bs)[..i]
    decreases |bs|
  {
    if i < |bs| {
      var bs' := bs[..|bs| - 1];
      assert bs'[..i] == bs[..i];
      OutcomesPrefix(bs', i);
    } else {
      assert bs[..i] == bs;
    }
  }

  /** Each outcome is what the Builder generator gives for that class. */
  lemma {:induction false} OutcomeAt(bs: seq<TypeElement>, j: nat)
    requires forall i :: 0 <= i < |bs| ==> Utils.ReachesPackage(bs[i].element)
    requires j < |bs|
    ensures Outcomes(bs)[j] == BuilderGenerator.GenerateSpec(bs[j])
    decreases |bs|
  {
    if j < |bs| - 1 {
      var bs' := bs[..|bs| - 1];
      assert bs'[j] == bs[j];
      OutcomeAt(bs', j);
    }
  }

  /** A class that does not throw gives exactly two files. */
  lemma TwoFilesEach(bs: seq<TypeElement>)
    requires forall i :: 0 <= i < |bs| ==> Utils.ReachesPackage(bs[i].element)
    ensures forall j :: 0 <= j < |bs| ==> Outcomes(bs)[j].Success? ==> |Outcomes(bs)[j].value| == 2
  {
    forall j | 0 <= j < |bs| ensures Outcomes(bs)[j].Success? ==> |Outcomes(bs)[j].value| == 2 {
      OutcomeAt(bs, j);
      if BuilderGenerator.GenerateSpec(bs[j]).Success? {
        BuilderGenerator.BuilderFileShape(bs[j]);
      }
    }
  }

  /** A class that gives its files adds them to the Builder loop. */
  lemma BuilderRunStep(bs: seq<TypeElement>, i: nat)
    requires forall j :: 0 <= j < |bs| ==> Utils.ReachesPackage(bs[j].element)
    requires i < |bs| && BuilderRun(bs[..i]).failure == None && BuilderGenerator.GenerateSpec(bs[i]).Success?
    ensures BuilderRun(bs[..i + 1]) == Plan(BuilderRun(bs[..i]).files + BuilderGenerator.GenerateSpec(bs[i]).value, None)
  {
    OutcomesSnoc(bs, i);
    RunSnoc(Outcomes(bs[..i]), BuilderGenerator.GenerateSpec(bs[i]));
  }

  /** A class whose generation throws ends the Builder loop with its exception. */
  lemma BuilderRunStops(bs: seq<TypeElement>, i: nat)
    requires forall j :: 0 <= j < |bs| ==> Utils.ReachesPackage(bs[j].element)
    requires i < |bs| && BuilderRun(bs[..i]).failure == None && BuilderGenerator.GenerateSpec(bs[i]).Failure?
    ensures BuilderRun(bs) == Plan(BuilderRun(bs[..i]).files, Some(BuilderGenerator.GenerateSpec(bs[i]).error))
  {
    OutcomesSnoc(bs, i);
    RunSnoc(Outcomes(bs[..i]), BuilderGenerator.GenerateSpec(bs[i]));
    OutcomesPrefix(bs, i + 1);
    RunStops(Outcomes(bs), i + 1);
  }

  lemma RunSnoc(os: seq<Outcome>, o: Outcome)
    ensures Run(os + [o]) ==
      if Run(os).failure.Some? then Run(os)
      else match o
        case Success(fs) => Plan(Run(os).files + fs, None)
        case Failure(e) => Plan(Run(os).files, Some(e))
  {
    assert (os + [o])[..|os|] == os;
  }

  /** Once a Builder class has thrown, the classes after it are never reached. */
  lemma {:induction false} RunStops(os: seq<Outcome>, i: nat)
    requires i <= |os| && Run(os[..i]).failure.Some?
    ensures Run(os) == Run(os[..i])
    decreases |os| - i
  {
    if i < |os| {
      assert os[..i + 1][..i] == os[..i];
      RunStops(os, i + 1);
    } else {
      assert os[..i] == os;
    }
  }

  /**
   * Every attempt yields exactly one of a persisted file and a warning; the
   * warnings name the refused attempts of the range, each once, in the
   * order they were tried.
   */
  lemma {:induction false} OneOutcomePerAttempt(files: seq<JavaFile>, base: nat, accepts: nat -> bool)
    ensures var ws := Warnings(files, base, accepts);
      |Written(files, base, accepts)| + |ws| == |files| &&
      (forall i :: 0 <= i < |ws| ==> ws[i].Warning? && base <= ws[i].attempt < base + |files| && !accepts(ws[i].attempt)) &&
      (forall i, j :: 0 <= i < j < |ws| ==> ws[i].attempt < ws[j].attempt) &&
      (forall k :: base <= k < base + |files| && !accepts(k) ==> Warning(k) in ws)
    decreases |files|
  {
    if files != [] {
      var files', k := files[..|files| - 1], base + |files| - 1;
      OneOutcomePerAttempt(files', base, accepts);
      var w', ws := Warnings(files', base, accepts), Warnings(files, base, accepts);
      assert ws == w' + (if accepts(k) then [] else [Warning(k)]);
      forall i | 0 <= i < |w'| ensures ws[i] == w'[i] {}
    }
  }

  /** The files whose attempts the Filer accepts, read from the first one on. */
  function Accepted(files: seq<JavaFile>, base: nat, accepts: nat -> bool): seq<JavaFile> {
    if files == [] then []
    else (if accepts(base) then [files[0]] else []) + Accepted(files[1..], base + 1, accepts)
  }

  /** The persisted files are the accepted ones, in the order they were tried. */
  lemma {:induction false} WrittenIsAccepted(files: seq<JavaFile>, base: nat, accepts: nat -> bool)
    ensures Written(files, base, accepts) == Accepted(files, base, accepts)
    decreases |files|
  {
    if files != [] {
      var f, rest := files[0], files[1..];
      assert files == [f] + rest;
      WrittenAppend([f], rest, base, accepts);
      assert Written([f], base, accepts) == (if accepts(base) then [f] else []) by {
        assert [f][..0] == [];
      }
      WrittenIsAccepted(rest, base + 1, accepts);
    }
  }

  /** With a Filer that accepts every attempt, everything is written and nothing is reported. */
  lemma {:induction false} AllAccepted(files: seq<JavaFile>, base: nat, accepts: nat -> bool)
    requires forall k :: accepts(k)
    ensures Written(files, base, accepts) == files && Warnings(files, base, accepts) == []
    decreases |files|
  {
    if files != [] {
      AllAccepted(files[..|files| - 1], base, accepts);
    }
  }

  /**
   * The Builder loop writes two files per class when each class gives two
   * files, in class order; when a class throws, it is the first class not
   * written and its exception is the failure.
   */
  lemma {:induction false} RunShape(os: seq<Outcome>)
    requires forall i :: 0 <= i < |os| ==> os[i].Success? ==> |os[i].value| == 2
    ensures var p := Run(os);
      var k := |p.files| / 2;
      |p.files| % 2 == 0 && k <= |os| &&
      (forall j :: 0 <= j < k ==> os[j].Success? && p.files[2 * j..2 * j + 2] == os[j].value) &&
      (p.failure == None ==> k == |os|) &&
      (p.failure.Some? ==> k < |os| && os[k] == Failure(p.failure.value))
    decreases |os|
  {
    if os != [] {
      var os' := os[..|os| - 1];
      RunShape(os');
      var p := Run(os');
      var o := os[|os| - 1];
      if p.failure == None && o.Success? {
        var files := p.files + o.value;
        assert |files| / 2 == |p.files| / 2 + 1;
        forall j | 0 <= j < |files| / 2
          ensures os[j].Success? && files[2 * j..2 * j + 2] == os[j].value
        {
          if j < |p.files| / 2 {
            assert os[j] == os'[j];
            assert files[2 * j..2 * j + 2] == p.files[2 * j..2 * j + 2];
          } else {
            assert files[2 * j..2 * j + 2] == o.value;
          }
        }
      } else if p.failure.Some? {
        assert os[|p.files| / 2] == os'[|p.files| / 2];
        forall j | 0 <= j < |p.files| / 2 ensures os[j] == os'[j] {}
      } else {
        forall j | 0 <= j < |p.files| / 2 ensures os[j] == os'[j] {}
      }
    }
  }

  /**
   * The order of a round: every Singleton file comes before every Builder
   * file; when no Builder class throws, a round tries exactly one write per
   * Singleton class and two per Builder class, whatever the Filer answers.
   */
  lemma RoundOrder(round: RoundEnvironment)
    requires WellFormed(round)
    ensures var plan, n := RoundPlan(round), |round.singletons|;
      n <= |plan.files| &&
      (forall i :: 0 <= i < n ==> plan.files[i] == SingletonGenerator.Generate(round.singletons[i])) &&
      plan.files[n..] == BuilderRun(round.builders).files &&
      (plan.failure == None ==> |plan.files| == n + 2 * |round.builders|)
  {
    TwoFilesEach(round.builders);
    RunShape(Outcomes(round.builders));
    var plan := RoundPlan(round);
    assert plan.files[|round.singletons|..] == BuilderRun(round.builders).files;
  }

  /**
   * The Builder loop of a round, class by class: the `j`-th pair of files is
   * the builder file and the built file of the `j`-th class; it stops at the
   * first class whose generation throws, with that exception.
   */
  lemma BuilderRunShape(bs: seq<TypeElement>)
    requires forall i :: 0 <= i < |bs| ==> Utils.ReachesPackage(bs[i].element)
    ensures var p := BuilderRun(bs);
      var k := |p.files| / 2;
      |p.files| % 2 == 0 && k <= |bs| &&
      (forall j :: 0 <= j < k ==>
         BuilderGenerator.GenerateSpec(bs[j]).Success? &&
         p.files[2 * j] == BuilderGenerator.GenerateSpec(bs[j]).value[0] &&
         p.files[2 * j + 1] == BuilderGenerator.GenerateSpec(bs[j]).value[1]) &&
      (p.failure == None ==> k == |bs|) &&
      (p.failure.Some? ==> k < |bs| && BuilderGenerator.GenerateSpec(bs[k]) == Failure(p.failure.value))
  {
    var os, p := Outcomes(bs), BuilderRun(bs);
    TwoFilesEach(bs);
    RunShape(os);
    OutcomesAre(bs);
    forall j | 0 <= j < |p.files| / 2
      ensures p.files[2 * j] == os[j].value[0] && p.files[2 * j + 1] == os[j].value[1]
    {
      PairAt(p.files, j, os[j].value);
    }
  }

  /** Every outcome is what the Builder generator gives for that class. */
  lemma {:induction false} OutcomesAre(bs: seq<TypeElement>)
    requires forall i :: 0 <= i < |bs| ==> Utils.ReachesPackage(bs[i].element)
    ensures forall j :: 0 <= j < |bs| ==> Outcomes(bs)[j] == BuilderGenerator.GenerateSpec(bs[j])
    decreases |bs|
  {
    if bs != [] {
      var bs' := bs[..|bs| - 1];
      OutcomesAre(bs');
      assert forall j :: 0 <= j < |bs'| ==> bs'[j] == bs[j];
    }
  }

  /** The two files of a pair, one by one. */
  lemma PairAt(fs: seq<JavaFile>, j: nat, pair: seq<JavaFile>)
    requires 2 * j + 2 <= |fs| && fs[2 * j..2 * j + 2] == pair
    ensures fs[2 * j] == pair[0] && fs[2 * j + 1] == pair[1]
  {
    assert fs[2 * j] == fs[2 * j..2 * j + 2][0];
  }
}
