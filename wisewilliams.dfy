/** The WiseWilliams strategy's decision (neobabix/strategies/wisewilliams.py):
    a Bill Williams entry that needs a green MFI bar, the AC and AO oscillators
    turning the same way, and price on the right side of the alligator. The
    indicator series are its inputs. */
module WiseWilliams {
  import opened Common
  import opened BillWilliams

  /** Python's s[-k]. */
  function Back(s: seq<real>, k: nat): real
    requires 1 <= k <= |s|
  {
    s[|s| - k]
  }

  /** lips[-1] < highs[-1] < teeth[-1] and highs[-1] < jaws[-1], evaluated left
      to right: teeth and jaws are read only once the comparisons before them held. */
  function AlligatorIsLong(lips: seq<real>, teeth: seq<real>, jaws: seq<real>, highs: seq<real>): (r: Result<bool>)
    ensures r.Err? ==> r.error == IndexError
    ensures r == Ok(true) <==> (|lips| >= 1 && |teeth| >= 1 && |jaws| >= 1 && |highs| >= 1 &&
      Back(lips, 1) < Back(highs, 1) < Back(teeth, 1) && Back(highs, 1) < Back(jaws, 1))
    ensures |lips| >= 1 && |teeth| >= 1 && |jaws| >= 1 && |highs| >= 1 ==> r.Ok?
  {
    if |lips| == 0 || |highs| == 0 then Err(IndexError)
    else if !(Back(lips, 1) < Back(highs, 1)) then Ok(false)
    else if |teeth| == 0 then Err(IndexError)
    else if !(Back(highs, 1) < Back(teeth, 1)) then Ok(false)
    else if |jaws| == 0 then Err(IndexError)
    else Ok(Back(highs, 1) < Back(jaws, 1))
  }

  /** lows[-1] above the last lips, teeth and jaws values, evaluated left to right. */
  function AlligatorIsShort(lips: seq<real>, teeth: seq<real>, jaws: seq<real>, lows: seq<real>): (r: Result<bool>)
    ensures r.Err? ==> r.error == IndexError
    ensures r == Ok(true) <==> (|lips| >= 1 && |teeth| >= 1 && |jaws| >= 1 && |lows| >= 1 &&
      Back(lows, 1) > Back(lips, 1) && Back(lows, 1) > Back(teeth, 1) && Back(lows, 1) > Back(jaws, 1))
    ensures |lips| >= 1 && |teeth| >= 1 && |jaws| >= 1 && |lows| >= 1 ==> r.Ok?
  {
    if |lows| == 0 || |lips| == 0 then Err(IndexError)
    else if !(Back(lows, 1) > Back(lips, 1)) then Ok(false)
    else if |teeth| == 0 then Err(IndexError)
    else if !(Back(lows, 1) > Back(teeth, 1)) then Ok(false)
    else if |jaws| == 0 then Err(IndexError)
    else Ok(Back(lows, 1) > Back(jaws, 1))
  }

  /** Every series long enough for each of filter's reads. */
  predicate Sized(mfi: seq<Option<MfiColour>>, ac: seq<real>, ao: seq<real>, lips: seq<real>, teeth: seq<real>,
                  jaws: seq<real>, highs: seq<real>, lows: seq<real>)
  {
    |mfi| >= 1 && |ac| >= 2 && |ao| >= 3 && |lips| >= 1 && |teeth| >= 1 && |jaws| >= 1 && |highs| >= 1 && |lows| >= 1
  }

  /** filter(): LONG when go_long, else SHORT when go_short, else NOTHING.
      A series too short for one of the reads raises IndexError. */
  function Filter(mfi: seq<Option<MfiColour>>, ac: seq<real>, ao: seq<real>, lips: seq<real>, teeth: seq<real>,
                  jaws: seq<real>, highs: seq<real>, lows: seq<real>): (r: Result<Action>)
    ensures r.Err? ==> r.error == IndexError
    ensures Sized(mfi, ac, ao, lips, teeth, jaws, highs, lows) ==> r.Ok?
    ensures r.Ok? ==> |mfi| >= 1 && |ac| >= 2 && |ao| >= 3
    ensures r.Ok? && r.value != Nothing ==> mfi[|mfi| - 1] == Some(Green)
    ensures r.Ok? && r.value == Long ==> (Back(ac, 1) > Back(ac, 2) && Back(ao, 1) > Back(ao, 2) && Back(ao, 2) < Back(ao, 3) &&
      |lips| >= 1 && |teeth| >= 1 && |jaws| >= 1 && |highs| >= 1 &&
      Back(lips, 1) < Back(highs, 1) < Back(teeth, 1) && Back(highs, 1) < Back(jaws, 1))
    ensures r.Ok? && r.value == Short ==> (Back(ac, 1) < Back(ac, 2) && Back(ao, 1) < Back(ao, 2) && Back(ao, 2) > Back(ao, 3) &&
      |lips| >= 1 && |teeth| >= 1 && |jaws| >= 1 && |lows| >= 1 &&
      Back(lows, 1) > Back(lips, 1) && Back(lows, 1) > Back(teeth, 1) && Back(lows, 1) > Back(jaws, 1))
    ensures r.Ok? && Back(ac, 1) == Back(ac, 2) ==> r.value == Nothing
  {
    if |mfi| < 1 then Err(IndexError)
    else
      var validMfi := mfi[|mfi| - 1] == Some(Green);
      if |ac| < 2 then Err(IndexError)
      else
        var acIsBlue, acIsRed := Back(ac, 1) > Back(ac, 2), Back(ac, 1) < Back(ac, 2);
        if |ao| < 3 then Err(IndexError)
        else
          var aoIsGreen, aoIsRed := Back(ao, 1) > Back(ao, 2), Back(ao, 1) < Back(ao, 2);
          var aoPositive := Back(ao, 2) <= Back(ao, 1) && Back(ao, 2) < Back(ao, 3);
          var aoNegative := Back(ao, 2) >= Back(ao, 1) && Back(ao, 2) > Back(ao, 3);
          var alligatorIsLong :- AlligatorIsLong(lips, teeth, jaws, highs);
          var alligatorIsShort :- AlligatorIsShort(lips, teeth, jaws, lows);
          var goLong := validMfi && acIsBlue && aoIsGreen && alligatorIsLong && aoPositive;
          var goShort := validMfi && acIsRed && aoIsRed && alligatorIsShort && aoNegative;
          Ok(if goLong then Long else if goShort then Short else Nothing)
  }

  /** The converse for LONG: a green last MFI bar, AC rising, AO rising after a
      falling bar, and highs between the lips and the teeth and under the jaws
      give LONG. */
  lemma FilterLongWhen(mfi: seq<Option<MfiColour>>, ac: seq<real>, ao: seq<real>, lips: seq<real>, teeth: seq<real>,
                       jaws: seq<real>, highs: seq<real>, lows: seq<real>)
    requires Sized(mfi, ac, ao, lips, teeth, jaws, highs, lows)
    requires mfi[|mfi| - 1] == Some(Green)
    requires Back(ac, 1) > Back(ac, 2) && Back(ao, 1) > Back(ao, 2) && Back(ao, 2) < Back(ao, 3)
    requires Back(lips, 1) < Back(highs, 1) < Back(teeth, 1) && Back(highs, 1) < Back(jaws, 1)
    ensures Filter(mfi, ac, ao, lips, teeth, jaws, highs, lows) == Ok(Long)
  {
  }

  /** The converse for SHORT: a green last MFI bar, AC falling, AO falling after
      a rising bar, and the last low above lips, teeth and jaws give SHORT. */
  lemma FilterShortWhen(mfi: seq<Option<MfiColour>>, ac: seq<real>, ao: seq<real>, lips: seq<real>, teeth: seq<real>,
                        jaws: seq<real>, highs: seq<real>, lows: seq<real>)
    requires Sized(mfi, ac, ao, lips, teeth, jaws, highs, lows)
    requires mfi[|mfi| - 1] == Some(Green)
    requires Back(ac, 1) < Back(ac, 2) && Back(ao, 1) < Back(ao, 2) && Back(ao, 2) > Back(ao, 3)
    requires Back(lows, 1) > Back(lips, 1) && Back(lows, 1) > Back(teeth, 1) && Back(lows, 1) > Back(jaws, 1)
    ensures Filter(mfi, ac, ao, lips, teeth, jaws, highs, lows) == Ok(Short)
  {
  }

  /** The LONG and SHORT conditions never hold together: AC cannot both rise and fall. */
  lemma FilterSidesExclusive(mfi: seq<Option<MfiColour>>, ac: seq<real>, ao: seq<real>, lips: seq<real>, teeth: seq<real>,
                             jaws: seq<real>, highs: seq<real>, lows: seq<real>)
    requires Sized(mfi, ac, ao, lips, teeth, jaws, highs, lows)
    ensures !(AlligatorIsLong(lips, teeth, jaws, highs) == Ok(true) && Back(ac, 1) > Back(ac, 2) &&
              AlligatorIsShort(lips, teeth, jaws, lows) == Ok(true) && Back(ac, 1) < Back(ac, 2))
  {
  }

  /** A bar whose MFI is not green, or has no MFI value, never trades. */
  lemma FilterNeedsGreen(mfi: seq<Option<MfiColour>>, ac: seq<real>, ao: seq<real>, lips: seq<real>, teeth: seq<real>,
                         jaws: seq<real>, highs: seq<real>, lows: seq<real>)
    requires Sized(mfi, ac, ao, lips, teeth, jaws, highs, lows)
    requires mfi[|mfi| - 1] != Some(Green)
    ensures Filter(mfi, ac, ao, lips, teeth, jaws, highs, lows) == Ok(Nothing)
  {
  }

  /** Short-circuit evaluation: with the last high not above the last lips the
      teeth and jaws are never read, so they may be empty. */
  lemma FilterSkipsUnreadAlligator(mfi: seq<Option<MfiColour>>, ac: seq<real>, ao: seq<real>, lips: seq<real>,
                                   highs: seq<real>, lows: seq<real>)
    requires |mfi| >= 1 && |ac| >= 2 && |ao| >= 3 && |lips| >= 1 && |highs| >= 1 && |lows| >= 1
    requires Back(highs, 1) <= Back(lips, 1) && Back(lows, 1) <= Back(lips, 1)
    ensures Filter(mfi, ac, ao, lips, [], [], highs, lows) == Ok(Nothing)
  {
  }
}
