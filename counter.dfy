/**
 * decorators/counter.py: `count_calls` wraps a function in a wrapper whose
 * `calls` attribute starts at 0 and is raised by one on every call, before
 * the message is printed and the wrapped function runs.  The wrapper is an
 * object with a counter field; what the console receives is the `output`
 * field, one line per call.
 */
module Counter {

  /** What calling the wrapped function gives: a value, or an exception that propagates. */
  datatype Outcome<R> = Returned(value: R) | Raised

  /** The decimal digit `d`. */
  function Digit(d: nat): (c: char)
    requires d < 10
    ensures '0' <= c <= '9' && (c as int) - ('0' as int) == d
  {
    "0123456789"[d]
  }

  predicate IsDigits(s: string)
  {
    forall i :: 0 <= i < |s| ==> '0' <= s[i] <= '9'
  }

  /** `str(n)`: the decimal numeral of `n`, with no leading zero. */
  function NatToString(n: nat): (s: string)
    ensures |s| >= 1 && IsDigits(s)
    ensures s[0] == '0' ==> n == 0 && s == "0"
    decreases n
  {
    if n < 10 then [Digit(n)] else NatToString(n / 10) + [Digit(n % 10)]
  }

  /** The number a decimal numeral denotes. */
  function DigitsValue(s: string): nat
    requires IsDigits(s)
    decreases |s|
  {
    if s == [] then 0
    else DigitsValue(s[..|s| - 1]) * 10 + ((s[|s| - 1] as int) - ('0' as int))
  }

  /** Reading the numeral back gives the number. */
  lemma {:induction false} NatToStringRoundTrip(n: nat)
    ensures DigitsValue(NatToString(n)) == n
    decreases n
  {
    if n >= 10 {
      NatToStringRoundTrip(n / 10);
      var s := NatToString(n);
      assert s[..|s| - 1] == NatToString(n / 10);
    }
  }

  /** Different counts have different numerals. */
  lemma NatToStringInjective(n: nat, m: nat)
    requires NatToString(n) == NatToString(m)
    ensures n == m
  {
    NatToStringRoundTrip(n);
    NatToStringRoundTrip(m);
  }

  /** The line printed for the `n`-th call of the function called `name`. */
  function Message(name: string, n: nat): string
  {
    "[Counter] Funkcja '" + name + "' wywołana " + NatToString(n) + " raz(y)"
  }

  /** The count can be read back from the message: two calls never print the same line. */
  lemma {:induction false} MessageNamesCount(name: string, n: nat, m: nat)
    requires Message(name, n) == Message(name, m)
    ensures n == m
  {
    var p := "[Counter] Funkcja '" + name + "' wywołana ";
    var a, b := NatToString(n), NatToString(m);
    assert Message(name, n) == p + a + " raz(y)";
    assert Message(name, m) == p + b + " raz(y)";
    assert |a| == |b|;
    assert a == Message(name, n)[|p|..|p| + |a|];
    assert b == Message(name, m)[|p|..|p| + |b|];
    NatToStringInjective(n, m);
  }

  /** The first call prints "wywołana 1 raz(y)". */
  lemma FirstCallMessage(name: string)
    ensures Message(name, 1) == "[Counter] Funkcja '" + name + "' wywołana 1 raz(y)"
  {
  }

  /** The object `count_calls(func)` returns. */
  class CallCounter<A, R> {
    const name: string
    const func: A -> Outcome<R>
    var calls: nat
    var output: seq<string>

    /** The counter's lines so far are one message per call, numbered 1, 2, ... */
    predicate Valid()
      reads this
    {
      |output| == calls && forall i :: 0 <= i < |output| ==> output[i] == Message(name, i + 1)
    }

    /** `count_calls(func)`: the counter starts at 0. */
    constructor (name: string, func: A -> Outcome<R>)
      ensures this.name == name && this.func == func
      ensures calls == 0 && output == []
      ensures Valid()
    {
      this.name := name;
      this.func := func;
      calls := 0;
      output := [];
    }

    /**
     * `wrapper(*args)`: count the call, print the updated count, then forward
     * the argument and hand back exactly what the wrapped function gives,
     * an exception included.
     */
    method Call(arg: A) returns (r: Outcome<R>)
      requires Valid()
      modifies this
      ensures calls == old(calls) + 1
      ensures output == old(output) + [Message(name, calls)]
      ensures r == func(arg)
      ensures Valid()
    {
      calls := calls + 1;
      output := output + [Message(name, calls)];
      r := func(arg);
    }
  }

  /**
   * Two decorated functions keep separate counters: three calls of one and
   * one of the other leave the counts 3 and 1, whether the calls raise or not.
   */
  method IndependentCounters<A, R>(f: A -> Outcome<R>, g: A -> Outcome<R>, x: A)
    returns (fCalls: nat, gCalls: nat, gLines: seq<string>)
    ensures fCalls == 3 && gCalls == 1
    ensures gLines == [Message("g", 1)]
  {
    var cf := new CallCounter("f", f);
    var cg := new CallCounter("g", g);
    var _ := cf.Call(x);
    var _ := cg.Call(x);
    var _ := cf.Call(x);
    var _ := cf.Call(x);
    fCalls, gCalls, gLines := cf.calls, cg.calls, cg.output;
  }
}
