/** The longest runs of failed and of paid invoices, in one pass. */
module Streaks {
  import opened Arithmetic

  /** A contiguous block of invoices that all failed, or all did not. */
  ghost predicate Block(flags: seq<bool>, value: bool, lo: int, hi: int) {
    0 <= lo <= hi <= |flags| && forall i :: lo <= i < hi ==> flags[i] == value
  }

  /** `n` is the length of the longest block. */
  ghost predicate Longest(flags: seq<bool>, value: bool, n: int) {
    && (exists lo, hi :: Block(flags, value, lo, hi) && hi - lo == n)
    && (forall lo, hi :: Block(flags, value, lo, hi) ==> hi - lo <= n)
  }

  /** `n` is the length of the block that ends the sequence. */
  ghost predicate Trailing(flags: seq<bool>, value: bool, n: int) {
    && Block(flags, value, |flags| - n, |flags|)
    && (n < |flags| ==> flags[|flags| - n - 1] != value)
  }

  function CountOf(flags: seq<bool>, value: bool): nat {
    if flags == [] then 0
    else CountOf(flags[..|flags| - 1], value) + if flags[|flags| - 1] == value then 1 else 0
  }

  lemma {:induction false} CountsAddUp(flags: seq<bool>)
    ensures CountOf(flags, true) + CountOf(flags, false) == |flags|
  {
    if flags != [] { CountsAddUp(flags[..|flags| - 1]); }
  }

  /** One more invoice: the running block grows or restarts, and the record follows it. */
  lemma OneMore(flags: seq<bool>, value: bool, flag: bool, run: int, record: int)
    requires Trailing(flags, value, run) && Longest(flags, value, record)
    ensures var run' := if flag == value then run + 1 else 0;
            Trailing(flags + [flag], value, run') && Longest(flags + [flag], value, Max(record, run'))
  {
    var longer := flags + [flag];
    var run' := if flag == value then run + 1 else 0;
    assert Block(longer, value, |longer| - run', |longer|);
    var lo, hi :| Block(flags, value, lo, hi) && hi - lo == record;
    assert Block(longer, value, lo, hi);
    assert run < |flags| ==> longer[|flags| - run - 1] != value;
    forall lo, hi | Block(longer, value, lo, hi)
      ensures hi - lo <= Max(record, run')
    {
      if hi <= |flags| {
        forall i | lo <= i < hi ensures flags[i] == value { assert longer[i] == flags[i]; }
        assert Block(flags, value, lo, hi);
      } else if lo < hi {
        assert longer[|flags|] == value;
      }
    }
  }

  /** True marks a failed invoice. */
  method Summarize(flags: seq<bool>) returns (maxFail: int, maxPay: int, failures: nat, captured: int)
    ensures Longest(flags, true, maxFail) && Longest(flags, false, maxPay)
    ensures failures == CountOf(flags, true) && captured == CountOf(flags, false)
    ensures failures + captured == |flags|
  {
    var failRun, payRun := 0, 0;
    maxFail, maxPay, failures := 0, 0, 0;
    assert Block([], true, 0, 0) && Block([], false, 0, 0);
    var i := 0;
    while i < |flags|
      invariant 0 <= i <= |flags|
      invariant Trailing(flags[..i], true, failRun) && Trailing(flags[..i], false, payRun)
      invariant Longest(flags[..i], true, maxFail) && Longest(flags[..i], false, maxPay)
      invariant failures == CountOf(flags[..i], true)
    {
      OneMore(flags[..i], true, flags[i], failRun, maxFail);
      OneMore(flags[..i], false, flags[i], payRun, maxPay);
      assert flags[..i + 1] == flags[..i] + [flags[i]];
      assert flags[..i + 1][..i] == flags[..i];
      if flags[i] {
        failRun := failRun + 1;
        payRun := 0;
        failures := failures + 1;
      } else {
        payRun := payRun + 1;
        failRun := 0;
      }
      maxFail := Max(maxFail, failRun);
      maxPay := Max(maxPay, payRun);
      i := i + 1;
    }
    assert flags[..i] == flags;
    captured := |flags| - failures;
    CountsAddUp(flags);
  }
}
