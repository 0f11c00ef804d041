/** The BuyEveryWeek strategy (neobabix/strategies/buyeveryweek.py): buy on one
    configured day of the week. The current weekday (Monday 0 to Sunday 6, as
    datetime.weekday() counts) and the DAY_OF_WEEK_TO_BUY environment value are
    inputs. */
module BuyEveryWeek {
  import opened Common

  /** DAY_OF_WEEK_TO_BUY as read at import: the environment's text, "3" when unset. */
  function DayOfWeekToBuy(env: Option<string>): (s: string)
    ensures env.Some? ==> s == env.value
    ensures env.None? ==> s == "3"
  {
    match env
    case None => "3"
    case Some(v) => v
  }

  /** __init__'s int(DAY_OF_WEEK_TO_BUY): text that is not an integer raises ValueError. */
  function ConfiguredWeekday(env: Option<string>): (r: Result<int>)
    ensures env.None? ==> r == Ok(3)
    ensures r.Err? ==> r.error == ValueError
    ensures r.Ok? ==> ParseInt(DayOfWeekToBuy(env)) == Some(r.value)
  {
    assert IntToString(3) == "3";
    PyIntOfIntToString(3);
    PyInt(Some(DayOfWeekToBuy(env)))
  }

  /** Constructing the strategy, then filter(): LONG on the configured weekday,
      NOTHING on every other day; never SHORT. */
  function Filter(weekdayNow: int, env: Option<string>): (r: Result<Action>)
    ensures r.Err? <==> ConfiguredWeekday(env).Err?
    ensures r.Ok? ==> r.value != Short
    ensures r.Ok? ==> (r.value == Long <==> weekdayNow == ConfiguredWeekday(env).value)
  {
    var toBuy :- ConfiguredWeekday(env);
    Ok(if weekdayNow == toBuy then Long else Nothing)
  }

  /** Unconfigured, the strategy buys on Thursdays (weekday 3) only. */
  lemma FilterDefaultsToThursday(weekdayNow: int)
    ensures Filter(weekdayNow, None) == Ok(if weekdayNow == 3 then Long else Nothing)
  {
  }

  /** A weekday configured as its decimal text is the day bought on. */
  lemma FilterConfigured(weekdayNow: int, day: int)
    ensures Filter(weekdayNow, Some(IntToString(day))) == Ok(if weekdayNow == day then Long else Nothing)
  {
    PyIntOfIntToString(day);
  }
}
