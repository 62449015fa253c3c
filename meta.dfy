/**
 * pipeline/meta.py: when a pipeline class is created, `PipelineMeta.__new__`
 * lists the names of the entries of the class body that carry the `_is_step`
 * marker, in definition order, and stores the list as `_steps`.
 */
module Meta {
  import opened Sequences

  /** One entry of a class body: its name and whether its value carries `_is_step`. */
  datatype Entry = Entry(name: string, marked: bool)

  /** The names of the entries, in definition order. */
  function Names(dct: seq<Entry>): (names: seq<string>)
    ensures |names| == |dct|
    ensures forall i :: 0 <= i < |dct| ==> names[i] == dct[i].name
  {
    seq(|dct|, i requires 0 <= i < |dct| => dct[i].name)
  }

  /** The keys of a class body are those of a dict: no name occurs twice. */
  ghost predicate UniqueNames(dct: seq<Entry>)
  {
    Distinct(Names(dct))
  }

  /** The list comprehension of `__new__`: the marked entries' names, in order. */
  function CollectSteps(dct: seq<Entry>): (steps: seq<string>)
    ensures |steps| <= |dct|
    decreases |dct|
  {
    if dct == [] then []
    else (if dct[0].marked then [dct[0].name] else []) + CollectSteps(dct[1..])
  }

  /** A created class: its name, its bases and its own `_steps`. */
  datatype PipelineClass = PipelineClass(name: string, bases: seq<PipelineClass>, steps: seq<string>)

  /** `PipelineMeta.__new__`: `_steps` is always set, from the class's own body only. */
  function NewClass(name: string, bases: seq<PipelineClass>, dct: seq<Entry>): (cls: PipelineClass)
    ensures cls.name == name && cls.bases == bases
  {
    PipelineClass(name, bases, CollectSteps(dct))
  }

  /** A name is a step exactly when some marked entry has it. */
  lemma {:induction false} StepsAreMarked(dct: seq<Entry>, x: string)
    ensures x in CollectSteps(dct) <==> Entry(x, true) in dct
    decreases |dct|
  {
    if dct != [] {
      StepsAreMarked(dct[1..], x);
      assert dct == [dct[0]] + dct[1..];
    }
  }

  /** The steps keep the definition order: they are a subsequence of the body's names. */
  lemma {:induction false} StepsInOrder(dct: seq<Entry>)
    ensures Subsequence(CollectSteps(dct), Names(dct))
    decreases |dct|
  {
    if dct != [] {
      StepsInOrder(dct[1..]);
      assert Names(dct)[1..] == Names(dct[1..]);
      if dct[0].marked {
        assert CollectSteps(dct)[1..] == CollectSteps(dct[1..]);
      } else {
        assert CollectSteps(dct) == CollectSteps(dct[1..]);
        assert Names(dct) == [dct[0].name] + Names(dct[1..]);
        SubsequenceCons(dct[0].name, CollectSteps(dct[1..]), Names(dct[1..]));
      }
    }
  }

  /** How many entries are marked. */
  function MarkedCount(dct: seq<Entry>): nat
    decreases |dct|
  {
    if dct == [] then 0 else (if dct[0].marked then 1 else 0) + MarkedCount(dct[1..])
  }

  /** One name per marked entry, and none twice when the body's names are distinct. */
  lemma {:induction false} StepsOncePerMarkedEntry(dct: seq<Entry>)
    requires UniqueNames(dct)
    ensures |CollectSteps(dct)| == MarkedCount(dct)
    ensures Distinct(CollectSteps(dct))
    decreases |dct|
  {
    if dct != [] {
      var rest := dct[1..];
      assert Names(dct)[1..] == Names(rest);
      assert UniqueNames(rest) by {
        forall i, j | 0 <= i < j < |rest| ensures Names(rest)[i] != Names(rest)[j] {
          assert Names(rest)[i] == Names(dct)[i + 1] && Names(rest)[j] == Names(dct)[j + 1];
        }
      }
      StepsOncePerMarkedEntry(rest);
      if dct[0].marked {
        var s := CollectSteps(dct);
        assert s == [dct[0].name] + CollectSteps(rest);
        FirstNameNotLater(dct);
        forall i, j | 0 <= i < j < |s| ensures s[i] != s[j] {
          if i > 0 {
            assert s[i] == CollectSteps(rest)[i - 1] && s[j] == CollectSteps(rest)[j - 1];
          } else {
            assert s[j] == CollectSteps(rest)[j - 1];
          }
        }
      }
    }
  }

  /** With distinct names, the first entry's name is not a step of the rest of the body. */
  lemma FirstNameNotLater(dct: seq<Entry>)
    requires UniqueNames(dct) && dct != []
    ensures dct[0].name !in CollectSteps(dct[1..])
  {
    var rest := dct[1..];
    forall k | 0 <= k < |rest| ensures rest[k].name != dct[0].name {
      assert Names(dct)[0] != Names(dct)[k + 1];
    }
    StepsAreMarked(rest, dct[0].name);
  }

  /** A body with no marked entry gives the empty list. */
  lemma {:induction false} NoMarkedNoSteps(dct: seq<Entry>)
    requires forall e :: e in dct ==> !e.marked
    ensures CollectSteps(dct) == []
    decreases |dct|
  {
    if dct != [] {
      assert dct[0] in dct;
      forall e | e in dct[1..] ensures !e.marked {
        assert e in dct;
      }
      NoMarkedNoSteps(dct[1..]);
    }
  }

  /**
   * Steps of a base class are not inherited into `_steps`: a name that no
   * entry of the class's own body has is not a step, whatever the bases list.
   */
  lemma OnlyOwnBody(name: string, bases: seq<PipelineClass>, dct: seq<Entry>, x: string)
    requires forall e :: e in dct ==> e.name != x
    ensures x !in NewClass(name, bases, dct).steps
  {
    StepsAreMarked(dct, x);
  }
}
