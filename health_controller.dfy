/**
 * The health controller: two liveness flags, one per instance, cleared by
 * instance-down notifications and failed probes and set by successful
 * probes.  The answer to each probe is a parameter.
 */
module HealthMonitor {
  import opened Http
  import opened Entities
  import ResponseSpec

  const Instance1: string := "Instance 1"
  const Instance2: string := "Instance 2"
  const Instance1Url: string := "http://localhost:8080/health"
  const Instance2Url: string := "http://localhost:8081/health"

  /** The controller's two flags. */
  datatype Liveness = Liveness(instance1Alive: bool, instance2Alive: bool)

  /** `handleFaultRecovery`: clear the flag the name selects; the port is not
      used. */
  function AfterFaultRecovery(l: Liveness, instanceName: string): (r: Liveness)
    ensures r.instance1Alive == (l.instance1Alive && instanceName != Instance1)
    ensures r.instance2Alive == (l.instance2Alive && instanceName != Instance2)
  {
    if instanceName == Instance1 then l.(instance1Alive := false)
    else if instanceName == Instance2 then l.(instance2Alive := false)
    else l
  }

  /** `instanceDown`: the port selects the flag to clear; any other port
      changes nothing. */
  function AfterInstanceDown(l: Liveness, port: int): (r: Liveness)
    ensures r.instance1Alive == (l.instance1Alive && port != PrimaryPort)
    ensures r.instance2Alive == (l.instance2Alive && port != SecondaryPort)
  {
    if port == PrimaryPort then AfterFaultRecovery(l.(instance1Alive := false), Instance1)
    else if port == SecondaryPort then AfterFaultRecovery(l.(instance2Alive := false), Instance2)
    else l
  }

  /** `checkInstanceHealth`: a 2xx answer sets the named flag, a non-2xx answer
      that throws nothing leaves both flags, and any exception clears the named
      flag and runs fault recovery for it. */
  function AfterProbe(l: Liveness, instanceName: string, outcome: Outcome): (r: Liveness)
    ensures instanceName != Instance1 && instanceName != Instance2 ==> r == l
    ensures instanceName == Instance1 ==>
              && r.instance2Alive == l.instance2Alive
              && r.instance1Alive == (outcome.Ok? || (outcome.NotOk? && l.instance1Alive))
    ensures instanceName == Instance2 ==>
              && r.instance1Alive == l.instance1Alive
              && r.instance2Alive == (outcome.Ok? || (outcome.NotOk? && l.instance2Alive))
  {
    match outcome
    case Ok =>
      if instanceName == Instance1 then l.(instance1Alive := true)
      else if instanceName == Instance2 then l.(instance2Alive := true)
      else l
    case NotOk => l
    case _ =>
      if instanceName == Instance1 then AfterFaultRecovery(l.(instance1Alive := false), Instance1)
      else if instanceName == Instance2 then AfterFaultRecovery(l.(instance2Alive := false), Instance2)
      else l
  }

  /** `monitorInstances`: probe instance 1, then instance 2. */
  function AfterMonitoring(l: Liveness, outcome1: Outcome, outcome2: Outcome): (r: Liveness)
    ensures r.instance1Alive == (outcome1.Ok? || (outcome1.NotOk? && l.instance1Alive))
    ensures r.instance2Alive == (outcome2.Ok? || (outcome2.NotOk? && l.instance2Alive))
  {
    AfterProbe(AfterProbe(l, Instance1, outcome1), Instance2, outcome2)
  }

  /** A repeated notification for the same port changes nothing more. */
  lemma InstanceDownIdempotent(l: Liveness, port: int)
    ensures AfterInstanceDown(AfterInstanceDown(l, port), port) == AfterInstanceDown(l, port)
  {
  }

  /** A probe that answers or throws decides the named flag whatever it was
      before; only a non-2xx answer without an exception keeps the old value. */
  lemma ProbeDecides(l1: Liveness, l2: Liveness, instanceName: string, outcome: Outcome)
    requires instanceName == Instance1 || instanceName == Instance2
    requires !outcome.NotOk?
    ensures var r1, r2 := AfterProbe(l1, instanceName, outcome), AfterProbe(l2, instanceName, outcome);
            instanceName == Instance1 ==> r1.instance1Alive == r2.instance1Alive
    ensures var r1, r2 := AfterProbe(l1, instanceName, outcome), AfterProbe(l2, instanceName, outcome);
            instanceName == Instance2 ==> r1.instance2Alive == r2.instance2Alive
  {
  }

  /** The notification a crash arbitration sends, once it reaches the health
      controller, marks exactly the reported instance down and leaves the
      other flag as it was. */
  lemma ArbitrationNotice(s: ResponseSpec.Svc, draws: seq<ResponseSpec.Draw>, l: Liveness)
    requires ResponseSpec.ValidDraws(draws)
    requires s.serverPort == PrimaryPort || s.serverPort == SecondaryPort
    ensures var c := ResponseSpec.ForceCrash(s, draws);
            var m := c.outbox[|c.outbox| - 1];
            var r := AfterInstanceDown(l, m.port);
            && m.InstanceDown?
            && (m.port == PrimaryPort <==> m.port != SecondaryPort)
            && (m.port == PrimaryPort ==> !r.instance1Alive && r.instance2Alive == l.instance2Alive)
            && (m.port == SecondaryPort ==> !r.instance2Alive && r.instance1Alive == l.instance1Alive)
  {
    var c := ResponseSpec.ForceCrash(s, draws);
    assert c.outbox == s.outbox + [c.outbox[|c.outbox| - 1]];
  }

  class HealthController {
    var instance1Alive: bool
    var instance2Alive: bool

    ghost function Flags(): Liveness
      reads this
    {
      Liveness(instance1Alive, instance2Alive)
    }

    constructor ()
      ensures Flags() == Liveness(true, true)
    {
      instance1Alive := true;
      instance2Alive := true;
    }

    method MonitorInstances(outcome1: Outcome, outcome2: Outcome)
      modifies this
      ensures Flags() == AfterMonitoring(old(Flags()), outcome1, outcome2)
    {
      CheckInstanceHealth(Instance1Url, Instance1, outcome1);
      CheckInstanceHealth(Instance2Url, Instance2, outcome2);
    }

    /** Probe `url`; `outcome` is how the GET ended. */
    method CheckInstanceHealth(url: string, instanceName: string, outcome: Outcome)
      modifies this
      ensures Flags() == AfterProbe(old(Flags()), instanceName, outcome)
    {
      if !Threw(outcome) {
        if outcome.Ok? {
          if instanceName == Instance1 {
            instance1Alive := true;
          } else if instanceName == Instance2 {
            instance2Alive := true;
          }
        }
      } else {
        if instanceName == Instance1 {
          instance1Alive := false;
          HandleFaultRecovery(Instance1, 8081);
        } else if instanceName == Instance2 {
          instance2Alive := false;
          HandleFaultRecovery(Instance2, 8082);
        }
      }
    }

    method HandleFaultRecovery(instanceName: string, port: int)
      modifies this
      ensures Flags() == AfterFaultRecovery(old(Flags()), instanceName)
    {
      if instanceName == Instance1 {
        instance1Alive := false;
      } else if instanceName == Instance2 {
        instance2Alive := false;
      }
    }

    /** The instance-down endpoint; it always answers 200. */
    method InstanceDown(port: int) returns (status: int)
      modifies this
      ensures status == 200
      ensures Flags() == AfterInstanceDown(old(Flags()), port)
    {
      if port == PrimaryPort {
        instance1Alive := false;
        HandleFaultRecovery(Instance1, port);
      } else if port == SecondaryPort {
        instance2Alive := false;
        HandleFaultRecovery(Instance2, port);
      }
      status := 200;
    }
  }
}
