/** The EMA528DCA strategy's decision (neobabix/strategies/ema528dca.py): buy
    when the previous close was under the 528-period EMA. The EMA series, which
    movingaverages.py does not define, is an input. */
module Ema528Dca {
  import opened Common

  /** filter(): the two conditions of lines 18-19 evaluated left to right, each
      reading the last values only when the previous close was under the EMA.
      Series shorter than two values raise IndexError. */
  function Filter(closes: seq<real>, ema: seq<real>): (r: Result<Action>)
    ensures r.Ok? <==> |closes| >= 2 && |ema| >= 2
    ensures r.Err? ==> r.error == IndexError
    ensures r.Ok? ==> r.value != Short
    ensures r.Ok? ==> (r.value == Long <==>
      closes[|closes| - 2] < ema[|ema| - 2] && closes[|closes| - 1] != ema[|ema| - 1])
  {
    if |closes| < 2 || |ema| < 2 then Err(IndexError)
    else
      var underBefore := closes[|closes| - 2] < ema[|ema| - 2];
      var nowUnder := underBefore && closes[|closes| - 1] < ema[|ema| - 1];
      var nowOver := underBefore && closes[|closes| - 1] > ema[|ema| - 1];
      Ok(if nowUnder || nowOver then Long else Nothing)
  }

  /** A previous close at or over the EMA never buys. */
  lemma FilterNeedsCloseUnder(closes: seq<real>, ema: seq<real>)
    requires |closes| >= 2 && |ema| >= 2
    requires closes[|closes| - 2] >= ema[|ema| - 2]
    ensures Filter(closes, ema) == Ok(Nothing)
  {
  }

  /** A last close exactly on the EMA does not buy, even after a close under it. */
  lemma FilterSkipsCloseOnEma(closes: seq<real>, ema: seq<real>)
    requires |closes| >= 2 && |ema| >= 2
    requires closes[|closes| - 1] == ema[|ema| - 1]
    ensures Filter(closes, ema) == Ok(Nothing)
  {
  }
}
