/** Choosing the transmit and receive channels, and turning a return code into
    the program's exit code (examples/loopback_txt.c and examples/loopback_data.c). */
module Channels {
  import opened Common

  /** The channel number that stands for "not given on the command line". */
  const UNSET: int := -1

  /** The channel pair main uses for the transfer. Both lists must be non-empty
      (otherwise -ENODEV). When neither channel was given, the first channel of
      each list is taken; otherwise the given pair is used as it is, without
      checking it against the lists. */
  function ResolveChannels(tx: int, rx: int, txList: seq<int>, rxList: seq<int>): (r: Result<(int, int)>)
    ensures r.Err? <==> |txList| == 0 || |rxList| == 0
    ensures r.Err? ==> r.code == -ENODEV
    ensures r.Ok? && tx == UNSET && rx == UNSET ==>
              r.value.0 in txList && r.value.1 in rxList &&
              r.value == (txList[0], rxList[0])
    ensures r.Ok? && (tx != UNSET || rx != UNSET) ==> r.value == (tx, rx)
  {
    if |txList| < 1 then Err(-ENODEV)
    else if |rxList| < 1 then Err(-ENODEV)
    else if tx == UNSET && rx == UNSET then Ok((txList[0], rxList[0]))
    else Ok((tx, rx))
  }

  predicate Ascending(s: seq<int>)
  {
    forall i, j | 0 <= i < j < |s| :: s[i] <= s[j]
  }

  /** The comment in both programs calls the default channels "the lowest
      numbered ones". That holds when the library reports each list in
      ascending order. */
  lemma DefaultIsLowest(txList: seq<int>, rxList: seq<int>)
    requires |txList| > 0 && |rxList| > 0
    requires Ascending(txList) && Ascending(rxList)
    ensures var r := ResolveChannels(UNSET, UNSET, txList, rxList);
      r.Ok? &&
      (forall c | c in txList :: r.value.0 <= c) &&
      (forall c | c in rxList :: r.value.1 <= c)
  {
    var r := ResolveChannels(UNSET, UNSET, txList, rxList);
    forall c | c in txList ensures r.value.0 <= c {
      var k :| 0 <= k < |txList| && txList[k] == c;
      if k > 0 { assert txList[0] <= txList[k]; }
    }
    forall c | c in rxList ensures r.value.1 <= c {
      var k :| 0 <= k < |rxList| && rxList[k] == c;
      if k > 0 { assert rxList[0] <= rxList[k]; }
    }
  }

  /** Without that ordering the first channel is not the lowest one. */
  lemma FirstIsNotAlwaysLowest()
    ensures var r := ResolveChannels(UNSET, UNSET, [5, 2], [3]);
      r == Ok((5, 3)) && 2 in [5, 2] && r.value.0 > 2
  {
  }

  /** `(rc < 0) ? -rc : 0` in loopback_txt.c's main: a failed transfer becomes the
      positive code of its error, anything else 0. */
  function ExitCode(rc: int): (code: int)
    ensures code >= 0
    ensures code == 0 <==> rc >= 0
    ensures rc < 0 ==> code + rc == 0
  {
    if rc < 0 then -rc else 0
  }
}
