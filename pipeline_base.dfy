/**
 * pipeline/base.py: `BasePipeline.run` goes through the class's `_steps` in
 * order, announces each step on the console and calls it.  A step that
 * raises ends the run: the exception propagates and no later step runs.
 * What a step does is not part of this model; which steps raise is given.
 */
module PipelineBase {
  import opened Meta

  /** What the run does, in order: print the `Announcement` of a step, or call it. */
  datatype Event<N> = Announced(step: N) | Invoked(step: N)

  /** The text `run` prints before calling the step `name`, starting with an empty line. */
  function Announcement(name: string): string
  {
    "\n[Pipeline] Wykonuję krok: " + name
  }

  /** The step can be read back from its announcement: different steps print different text. */
  lemma AnnouncementNamesStep(a: string, b: string)
    requires Announcement(a) == Announcement(b)
    ensures a == b
  {
    var prefix := "\n[Pipeline] Wykonuję krok: ";
    assert a == Announcement(a)[|prefix|..];
    assert b == Announcement(b)[|prefix|..];
  }

  /** The events of running `steps` when the steps named in `raising` raise. */
  function RunTrace<N(==)>(steps: seq<N>, raising: set<N>): seq<Event<N>>
    decreases |steps|
  {
    if steps == [] then []
    else [Announced(steps[0]), Invoked(steps[0])]
         + (if steps[0] in raising then [] else RunTrace(steps[1..], raising))
  }

  /** The step an event calls, if it is a call. */
  function Called<N>(e: Event<N>): seq<N>
  {
    if e.Invoked? then [e.step] else []
  }

  /** The steps called, in the order of the calls. */
  function Invocations<N(==)>(trace: seq<Event<N>>): (called: seq<N>)
    ensures |called| <= |trace|
    decreases |trace|
  {
    if trace == [] then [] else Called(trace[0]) + Invocations(trace[1..])
  }

  /** The index of the first step that raises, or `|steps|` when none does. */
  function FirstRaising<N(==)>(steps: seq<N>, raising: set<N>): (k: nat)
    ensures k <= |steps|
    ensures forall j :: 0 <= j < k ==> steps[j] !in raising
    ensures k < |steps| ==> steps[k] in raising
    decreases |steps|
  {
    if steps == [] || steps[0] in raising then 0 else 1 + FirstRaising(steps[1..], raising)
  }

  /** The pipeline object: the class's `_steps`, the given failing steps, and what has happened so far. */
  class Pipeline {
    const steps: seq<string>
    const raising: set<string>
    var trace: seq<Event<string>>

    /** An instance of the class built by `PipelineMeta` from `body`. */
    constructor (body: seq<Entry>, raising: set<string>)
      ensures steps == NewClass("Pipeline", [], body).steps
      ensures this.raising == raising && trace == []
    {
      steps := CollectSteps(body);
      this.raising := raising;
      trace := [];
    }

    /**
     * `run`: announce and call each step in turn, stopping at the first
     * step that raises.
     */
    method Run() returns (outcome: RunOutcome)
      modifies this
      ensures trace == old(trace) + RunTrace(steps, raising)
      ensures outcome.Failed? <==> FirstRaising(steps, raising) < |steps|
      ensures outcome.Failed? ==> outcome.step == steps[FirstRaising(steps, raising)]
    {
      var i := 0;
      ghost var start := trace;
      while i < |steps|
        invariant i <= FirstRaising(steps, raising)
        invariant trace == start + RunTrace(steps[..i], raising)
      {
        var name := steps[i];
        trace := trace + [Announced(name)];
        trace := trace + [Invoked(name)];
        OneMoreStep(steps, i, raising);
        if name in raising {
          return Failed(name);
        }
        i := i + 1;
      }
      assert steps[..i] == steps;
      outcome := Completed;
    }
  }

  /** How a run ends: every step returned, or the named step raised. */
  datatype RunOutcome = Completed | Failed(step: string)

  /** After steps none of which raised, one more step adds its announcement and its call. */
  lemma {:induction false} RunTraceSnoc<N>(done: seq<N>, s: N, raising: set<N>)
    requires forall j :: 0 <= j < |done| ==> done[j] !in raising
    ensures RunTrace(done + [s], raising) == RunTrace(done, raising) + [Announced(s), Invoked(s)]
    decreases |done|
  {
    if done == [] {
      assert [s][1..] == [];
    } else {
      assert (done + [s])[1..] == done[1..] + [s];
      RunTraceSnoc(done[1..], s, raising);
    }
  }

  /** What running step `i` adds to the trace, and how the run ends if it raises. */
  lemma OneMoreStep<N>(steps: seq<N>, i: nat, raising: set<N>)
    requires i < |steps| && i <= FirstRaising(steps, raising)
    ensures RunTrace(steps[..i + 1], raising) == RunTrace(steps[..i], raising) + [Announced(steps[i]), Invoked(steps[i])]
    ensures steps[i] in raising ==> RunTrace(steps, raising) == RunTrace(steps[..i + 1], raising)
    ensures steps[i] in raising <==> FirstRaising(steps, raising) == i
  {
    assert steps[..i + 1] == steps[..i] + [steps[i]];
    RunTraceSnoc(steps[..i], steps[i], raising);
    if steps[i] in raising {
      RunTraceStops(steps, i, raising);
    }
  }

  /** A step that raises ends the trace: the later steps leave no event. */
  lemma {:induction false} RunTraceStops<N>(steps: seq<N>, i: nat, raising: set<N>)
    requires i < |steps| && steps[i] in raising
    requires forall j :: 0 <= j < i ==> steps[j] !in raising
    ensures RunTrace(steps, raising) == RunTrace(steps[..i + 1], raising)
    decreases i
  {
    if i > 0 {
      assert steps[..i + 1][1..] == steps[1..][..i];
      RunTraceStops(steps[1..], i - 1, raising);
    } else {
      assert steps[..1][1..] == [];
    }
  }

  /** The first raising step is characterised by its index: no earlier step raises and it does. */
  lemma {:induction false} FirstRaisingAt<N>(steps: seq<N>, i: nat, raising: set<N>)
    requires i <= |steps|
    requires forall j :: 0 <= j < i ==> steps[j] !in raising
    requires i < |steps| ==> steps[i] in raising
    ensures FirstRaising(steps, raising) == i
    decreases i
  {
    if i > 0 {
      FirstRaisingAt(steps[1..], i - 1, raising);
    }
  }

  /**
   * Every step up to the first that raises is called exactly once, in list
   * order, and no later step is called.
   */
  lemma StepsCalledInOrder<N>(steps: seq<N>, raising: set<N>)
    ensures FirstRaising(steps, raising) < |steps| ==> Invocations(RunTrace(steps, raising)) == steps[..FirstRaising(steps, raising) + 1]
    ensures FirstRaising(steps, raising) == |steps| ==> Invocations(RunTrace(steps, raising)) == steps
  {
    var k := FirstRaising(steps, raising);
    if k < |steps| {
      var s := steps[k];
      calc {
        Invocations(RunTrace(steps, raising));
      == { RunTraceStops(steps, k, raising); }
        Invocations(RunTrace(steps[..k + 1], raising));
      == { assert steps[..k + 1] == steps[..k] + [s];
           RunTraceSnoc(steps[..k], s, raising); }
        Invocations(RunTrace(steps[..k], raising) + [Announced(s), Invoked(s)]);
      == { InvocationsConcat(RunTrace(steps[..k], raising), [Announced(s), Invoked(s)]); }
        Invocations(RunTrace(steps[..k], raising)) + Invocations([Announced(s), Invoked(s)]);
      == { CleanRunCallsAll(steps[..k], raising);
           InvocationsPair(s, []); }
        steps[..k] + [s];
      == { assert steps[..k + 1] == steps[..k] + [s]; }
        steps[..k + 1];
      }
    } else {
      CleanRunCallsAll(steps, raising);
    }
  }

  /** When no step raises, every step is called, in order. */
  lemma {:induction false} CleanRunCallsAll<N>(steps: seq<N>, raising: set<N>)
    requires forall j :: 0 <= j < |steps| ==> steps[j] !in raising
    ensures Invocations(RunTrace(steps, raising)) == steps
    decreases |steps|
  {
    if steps != [] {
      CleanRunCallsAll(steps[1..], raising);
      InvocationsPair(steps[0], RunTrace(steps[1..], raising));
    }
  }

  lemma {:induction false} InvocationsConcat<N>(a: seq<Event<N>>, b: seq<Event<N>>)
    ensures Invocations(a + b) == Invocations(a) + Invocations(b)
    decreases |a|
  {
    if a == [] {
      assert a + b == b;
    } else {
      var ab := a + b;
      assert ab[0] == a[0] && ab[1..] == a[1..] + b;
      InvocationsConcat(a[1..], b);
      var h, x, y := Called(a[0]), Invocations(a[1..]), Invocations(b);
      assert Invocations(ab) == h + (x + y);
      assert h + (x + y) == (h + x) + y;
    }
  }

  /** The calls of an announcement and a call followed by more events. */
  lemma InvocationsPair<N>(s: N, rest: seq<Event<N>>)
    ensures Invocations([Announced(s), Invoked(s)] + rest) == [s] + Invocations(rest)
  {
    var t := [Announced(s), Invoked(s)] + rest;
    assert t[1..] == [Invoked(s)] + rest;
    assert t[1..][1..] == rest;
  }

  /**
   * Announcements and calls alternate, starting with an announcement, and
   * each call is immediately preceded by the announcement of the same step.
   */
  predicate AnnouncedThenCalled<N(==)>(t: seq<Event<N>>)
  {
    && (forall i :: 0 <= i < |t| ==> (t[i].Invoked? <==> i % 2 == 1))
    && (forall i :: 0 < i < |t| && t[i].Invoked? ==> t[i - 1] == Announced(t[i].step))
  }

  /** Every run's trace announces each step right before calling it. */
  lemma {:induction false} AnnouncedBeforeCall<N>(steps: seq<N>, raising: set<N>)
    ensures AnnouncedThenCalled(RunTrace(steps, raising))
    decreases |steps|
  {
    if steps != [] {
      var rest: seq<Event<N>> := [];
      if steps[0] !in raising {
        rest := RunTrace(steps[1..], raising);
        AnnouncedBeforeCall(steps[1..], raising);
      }
      var t := RunTrace(steps, raising);
      assert t == [Announced(steps[0]), Invoked(steps[0])] + rest;
      assert t[0] == Announced(steps[0]) && t[1] == Invoked(steps[0]);
      forall i | 0 <= i < |t| ensures t[i].Invoked? <==> i % 2 == 1 {
        if i >= 2 {
          assert t[i] == rest[i - 2];
          assert (i - 2) % 2 == i % 2;
        }
      }
      forall i | 0 < i < |t| && t[i].Invoked? ensures t[i - 1] == Announced(t[i].step) {
        if i >= 2 {
          assert t[i] == rest[i - 2];
          assert t[i - 1] == rest[i - 3];
        }
      }
    }
  }

  /** With no registered step the run prints nothing and calls nothing. */
  lemma NoStepsNoCalls<N>(raising: set<N>)
    ensures RunTrace([], raising) == []
    ensures Invocations(RunTrace([], raising)) == []
  {
  }
}
