/**
 * The client controller's liveness check over the latest Health record, and
 * its generator of random payloads.  The store's answer and the random draws
 * are parameters.
 */
module ClientApi {
  import opened Wrappers
  import opened Entities
  import ResponseSpec
  import Responses

  /** How `checkHealth` ends: 200, 404, or an exception from unboxing a
      missing flag. */
  datatype Answer = Alive | NotAlive | NullFlagException

  /** The health check as written: the flag is compared with 1 before it is
      compared with null, so a record without a flag throws. */
  function CheckHealthAsWritten(latest: Option<Health>): (r: Answer)
    ensures latest.None? ==> r == NotAlive
    ensures latest.Some? && latest.value.flag.None? ==> r == NullFlagException
    ensures latest.Some? && latest.value.flag.Some? ==> r == (if latest.value.flag.value == 1 then Alive else NotAlive)
    ensures r == NullFlagException <==> latest.Some? && latest.value.flag.None?
    ensures r != NullFlagException ==> (r == Alive <==> latest.Some? && latest.value.flag == Some(1))
  {
    match latest
    case None => NotAlive
    case Some(h) =>
      match h.flag
      case None => NullFlagException
      case Some(f) => if f == 1 then Alive else NotAlive
  }

  /** A record whose flag was never set makes the as-written check throw. */
  lemma NullFlagThrows()
    ensures CheckHealthAsWritten(Some(Health(0, 0, None))) == NullFlagException
  {
  }

  /** The health check as its condition means it: alive when there is a
      record and its flag is 1 or missing. */
  function CheckHealth(latest: Option<Health>): (r: Answer)
    ensures r != NullFlagException
    ensures r == Alive <==> latest.Some? && (latest.value.flag == Some(1) || latest.value.flag.None?)
  {
    if latest.Some? && (latest.value.flag.None? || latest.value.flag.value == 1) then Alive
    else NotAlive
  }

  /** The two checks agree on every record that has a flag, and on no record. */
  lemma CheckHealthAgreesWhenFlagSet(latest: Option<Health>)
    requires latest.None? || latest.value.flag.Some?
    ensures CheckHealth(latest) == CheckHealthAsWritten(latest)
  {
  }

  /** Every save leaves a record with flag 1, so a client that reads the store
      after a save is reported alive, by either check. */
  lemma AliveAfterSave(s: ResponseSpec.Svc, data: string, now: int, draws: seq<ResponseSpec.Draw>)
    requires ResponseSpec.ValidDraws(draws)
    ensures var h := ResponseSpec.SaveRandomResponse(s, data, now, draws).health;
            CheckHealthAsWritten(h) == Alive && CheckHealth(h) == Alive
  {
    ResponseSpec.SaveLeavesFlagUp(s, data, now, draws);
  }

  /** `generateRandomData`: ten letters, the i-th being 'a' plus the i-th
      draw from 0..25. */
  method GenerateRandomData(draws: seq<int>) returns (s: string)
    requires |draws| == 10 && forall j :: 0 <= j < |draws| ==> 0 <= draws[j] < 26
    ensures |s| == 10
    ensures forall j :: 0 <= j < |s| ==> 'a' <= s[j] <= 'z'
    ensures forall j :: 0 <= j < |s| ==> s[j] as int == 'a' as int + draws[j]
    ensures s == Responses.GenerateRandomString(seq(10, j requires 0 <= j < 10 => 'a' as int + draws[j]))
  {
    var length := 10;
    s := "";
    for i := 0 to length
      invariant |s| == i
      invariant forall j :: 0 <= j < i ==> s[j] as int == 'a' as int + draws[j]
    {
      var randomChar := ('a' as int + draws[i]) as char;
      s := s + [randomChar];
    }
  }
}
