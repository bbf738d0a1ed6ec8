/**
 * The response service object.  Its methods update its fields in place,
 * and each one is proved against a ResponseSpec function on the snapshot
 * State(), or states its effect by an explicit frame.  The clock, the draws and the answers to HTTP calls
 * are parameters.
 */
module Responses {
  import opened Wrappers
  import opened Http
  import opened Draws
  import opened Entities
  import opened ResponseSpec

  /** `generateRandomString`: ten code points drawn from 97..122 ('a'..'z'),
      appended as characters. */
  function GenerateRandomString(codes: seq<int>): (r: string)
    requires |codes| == 10
    requires forall j :: 0 <= j < |codes| ==> 97 <= codes[j] <= 122
    ensures |r| == 10
    ensures forall j :: 0 <= j < |r| ==> 'a' <= r[j] <= 'z'
    ensures forall j :: 0 <= j < |r| ==> r[j] as int == codes[j]
  {
    seq(10, j requires 0 <= j < 10 => codes[j] as char)
  }

  /** Different draws give different strings: the string keeps every draw. */
  lemma RandomStringKeepsCodes(c1: seq<int>, c2: seq<int>)
    requires |c1| == 10 && forall j :: 0 <= j < |c1| ==> 97 <= c1[j] <= 122
    requires |c2| == 10 && forall j :: 0 <= j < |c2| ==> 97 <= c2[j] <= 122
    ensures GenerateRandomString(c1) == GenerateRandomString(c2) <==> c1 == c2
  {
    if GenerateRandomString(c1) == GenerateRandomString(c2) {
      forall j | 0 <= j < 10
        ensures c1[j] == c2[j]
      {
        assert GenerateRandomString(c1)[j] == GenerateRandomString(c2)[j];
      }
    }
  }

  /** forceCrash's do-while: both numbers are drawn, and drawn again while
      they are equal. */
  method DrawUntilDistinct(draws: seq<Draw>) returns (k: nat, local: int, other: int)
    requires ValidDraws(draws)
    ensures k == FirstDistinct(draws)
    ensures local == draws[k].local && other == draws[k].other
    ensures local != other && InDrawRange(local) && InDrawRange(other)
  {
    k := 0;
    local := draws[0].local;
    other := draws[0].other;
    while local == other
      invariant k <= FirstDistinct(draws)
      invariant local == draws[k].local && other == draws[k].other
      decreases FirstDistinct(draws) - k
    {
      k := k + 1;
      local := draws[k].local;
      other := draws[k].other;
    }
  }

  class ResponseService {
    var requestsInCurrentWindow: int
    /** Seconds on the clock when the current window started. */
    var windowStartTime: int
    /** Whether this instance believes its /response endpoint is up. */
    var responseAlive: bool
    var excessRequestsInCurrentWindow: int
    var forceCrashTriggered: bool
    var serverPort: int
    var randomNumber: int
    var activeInstance: bool
    /** The latest Health record in the store, if there is one. */
    var health: Option<Health>
    /** The payloads of the Response records saved so far. */
    var responses: seq<string>
    /** The HTTP calls made so far, in order. */
    var outbox: seq<Message>
    /** Ports whose restart thread has started and not yet fired. */
    var pendingRestarts: seq<int>

    ghost function State(): Svc
      reads this
    {
      Svc(requestsInCurrentWindow, windowStartTime, responseAlive, excessRequestsInCurrentWindow,
          forceCrashTriggered, serverPort, randomNumber, activeInstance, health, responses,
          outbox, pendingRestarts)
    }

    /** The field initialisers, with the configured port, the clock and the
        store as the service finds them. */
    constructor (port: int, now: int, stored: Option<Health>)
      ensures State() == Initial(port, now, stored)
    {
      requestsInCurrentWindow := 0;
      windowStartTime := now;
      responseAlive := true;
      excessRequestsInCurrentWindow := 0;
      forceCrashTriggered := false;
      serverPort := port;
      randomNumber := -1;
      activeInstance := false;
      health := stored;
      responses := [];
      outbox := [];
      pendingRestarts := [];
    }

    method Init()
      modifies this
      ensures State() == Initialized(old(State()))
    {
      if serverPort == PrimaryPort {
        activeInstance := true;
      } else {
        activeInstance := false;
      }
    }

    method UpdateActiveInstance(activePort: int)
      modifies this
      ensures State() == WithActivePort(old(State()), activePort)
    {
      if serverPort == activePort {
        activeInstance := true;
      } else {
        activeInstance := false;
      }
    }

    method HandleInstanceSwitch(newActivePort: int)
      modifies this
      ensures State() == WithActivePort(old(State()), newActivePort)
    {
      UpdateActiveInstance(newActivePort);
    }

    /** The scheduled generation: only the active instance with /response up
        sends; one element of `attempts` per request of the burst. */
    method GenerateAndSendRandomRequests(attempts: seq<Attempt>, finalDraws: seq<Draw>) returns (escaped: bool)
      requires |attempts| <= MaxBurst && AttemptsFit(attempts) && ValidDraws(finalDraws)
      modifies this
      ensures Ending(State(), escaped) == Generated(old(State()), attempts, finalDraws)
    {
      if !activeInstance {
        return false;
      }
      if !responseAlive {
        return false;
      }
      requestsInCurrentWindow := 0;
      assert State() == old(State()).(requestsInCurrentWindow := 0);
      escaped := SendBurst(attempts);
      if escaped {
        return;
      }
      CheckExcessAfterBurst(finalDraws);
    }

    /** The request loop of the scheduled generation: send until the attempts
        run out, a POST fails (then probe /response and stop), or an exception
        escapes. */
    method SendBurst(attempts: seq<Attempt>) returns (escaped: bool)
      requires AttemptsFit(attempts)
      modifies this
      ensures Ending(State(), escaped) == Burst(old(State()), attempts)
    {
      ghost var goal := Burst(State(), attempts);
      escaped := false;
      var i := 0;
      while i < |attempts|
        invariant 0 <= i <= |attempts|
        invariant AttemptsFit(attempts[i..])
        invariant Burst(State(), attempts[i..]) == goal
        decreases |attempts| - i
      {
        ghost var before := State();
        var rest := attempts[i..];
        assert rest[0] == attempts[i];
        var sent := SendAndCount(attempts[i]);
        if sent == Escaped {
          assert goal == Ending(State(), true);
          return true;
        }
        if sent == Failed {
          escaped := CheckResponseHealth(attempts[i].probe);
          assert goal == Ending(State(), escaped);
          return;
        }
        BurstContinues(before, rest);
        assert rest[1..] == attempts[i + 1..];
        i := i + 1;
      }
      assert goal == Ending(State(), false);
    }

    /** The check after the loop: an excess still above the limit forces a
        crash. */
    method CheckExcessAfterBurst(finalDraws: seq<Draw>)
      requires ValidDraws(finalDraws)
      modifies this
      ensures State() == AfterBurst(Ending(old(State()), false), finalDraws).state
    {
      if excessRequestsInCurrentWindow > MaxAllowedDiff {
        ghost var last := State();
        ForceCrash(finalDraws);
        forceCrashTriggered := true;
        assert State() == ResponseSpec.ForceCrash(last, finalDraws).(forceCrashTriggered := true);
      }
    }

    /** The body of the generation loop: compute the excess, send, and count
        the request; an exception that escapes the send skips the count. */
    method SendAndCount(a: Attempt) returns (sent: Sent)
      requires ValidDraws(a.crashDraws)
      modifies this
      ensures SendStep(State(), sent) == Iteration(old(State()), a)
    {
      ghost var s0 := State();
      IterationSteps(s0, a);
      excessRequestsInCurrentWindow := requestsInCurrentWindow - MaxRequestsPerMinute;
      assert State() == s0.(excessRequestsInCurrentWindow := s0.requestsInCurrentWindow - MaxRequestsPerMinute);
      sent := SendRandomDataToResponse(a);
      if sent == Escaped {
        return;
      }
      ghost var s2 := State();
      requestsInCurrentWindow := requestsInCurrentWindow + 1;
      assert State() == s2.(requestsInCurrentWindow := s2.requestsInCurrentWindow + 1);
    }

    /** One POST of a generated payload to this instance's /response. */
    method SendRandomDataToResponse(a: Attempt) returns (sent: Sent)
      requires ValidDraws(a.crashDraws)
      modifies this
      ensures SendStep(State(), sent) == SendRandomData(old(State()), a)
    {
      var randomData := a.data;
      outbox := outbox + [SelfPost(serverPort, randomData)];
      match a.reply
      case Ok =>
        SaveRandomResponse(randomData, a.now, a.crashDraws);
        sent := Delivered;
      case NotOk =>
        sent := Failed;
      case StatusError(code) =>
        if code == 404 {
          responseAlive := false;
        }
        sent := Failed;
      case Unreachable =>
        sent := Escaped;
    }

    method SaveRandomResponse(randomData: string, now: int, draws: seq<Draw>)
      requires ValidDraws(draws)
      modifies this
      ensures State() == ResponseSpec.SaveRandomResponse(old(State()), randomData, now, draws)
    {
      var h := if health.Some? then health.value else Health(0, 0, Some(1));
      health := Some(h);
      RollWindow(now);
      if excessRequestsInCurrentWindow > 0 {
        if excessRequestsInCurrentWindow > MaxAllowedDiff {
          CrashBeforeSaving(draws);
        }
      }
      RecordAndBroadcast(randomData);
    }

    /** Start a new window once 60 seconds have passed. */
    method RollWindow(now: int)
      modifies this
      ensures State() == RolledWindow(old(State()), now)
    {
      if now - windowStartTime >= WindowSeconds {
        windowStartTime := now;
        requestsInCurrentWindow := 0;
      }
    }

    /** The crash branch of saveRandomResponse. */
    method CrashBeforeSaving(draws: seq<Draw>)
      requires ValidDraws(draws) && health.Some?
      modifies this
      ensures State() == CrashBranch(old(State()), draws)
    {
      health := Some(health.value.(flag := Some(0)));
      ForceCrash(draws);
      forceCrashTriggered := true;
      ResetExcessRequests();
    }

    /** Save the Response, update the Health statistics and broadcast. */
    method RecordAndBroadcast(randomData: string)
      requires health.Some?
      modifies this
      ensures State() == Recorded(old(State()), randomData)
    {
      responses := responses + [randomData];
      var h := health.value;
      h := h.(numRequests := h.numRequests + 1, diff := excessRequestsInCurrentWindow,
              flag := Some(if excessRequestsInCurrentWindow > MaxAllowedDiff then 0 else 1));
      health := Some(h);
      BroadcastOperationToReplica(randomData);
    }

    method ResetExcessRequests()
      modifies this
      ensures State() == ExcessReset(old(State()))
    {
      excessRequestsInCurrentWindow := 0;
      requestsInCurrentWindow := 0;
      forceCrashTriggered := false;
    }

    /** POST the payload to the other instance's replica-sync endpoint; a
        failure is caught and ignored. */
    method BroadcastOperationToReplica(data: string)
      modifies this
      ensures outbox == old(outbox) + [ReplicaSync(Peer(serverPort), data)]
      ensures State() == old(State()).(outbox := outbox)
    {
      var otherInstancePort := if serverPort == PrimaryPort then SecondaryPort else PrimaryPort;
      outbox := outbox + [ReplicaSync(otherInstancePort, data)];
    }

    method ProcessReplicaData(data: string)
      modifies this
      ensures State() == ReplicaApplied(old(State()), data)
    {
      SaveRandomResponseWithoutBroadcast(data);
    }

    method SaveRandomResponseWithoutBroadcast(randomData: string)
      modifies this
      ensures State() == ReplicaApplied(old(State()), randomData)
    {
      var h := if health.Some? then health.value else Health(0, 0, Some(1));
      health := Some(h);
      responses := responses + [randomData];
    }

    method ForceCrash(draws: seq<Draw>)
      requires ValidDraws(draws)
      modifies this
      ensures State() == ResponseSpec.ForceCrash(old(State()), draws)
    {
      var otherInstancePort := if serverPort == PrimaryPort then SecondaryPort else PrimaryPort;
      var k, local, other := DrawUntilDistinct(draws);
      randomNumber := local;
      if randomNumber < other {
        InformHealthEndpoint(otherInstancePort);
        ScheduleInstanceRestart(otherInstancePort);
      } else {
        InformHealthEndpoint(serverPort);
        ScheduleInstanceRestart(serverPort);
        serverPort := otherInstancePort;
      }
    }

    /** Start the restart thread for `port`; its effect is RestartThreadFires. */
    method ScheduleInstanceRestart(port: int)
      modifies this
      ensures pendingRestarts == old(pendingRestarts) + [port]
      ensures State() == old(State()).(pendingRestarts := pendingRestarts)
    {
      pendingRestarts := pendingRestarts + [port];
    }

    /** The oldest restart thread wakes up: /response is believed up again. */
    method RestartThreadFires()
      requires |pendingRestarts| > 0
      modifies this
      ensures State() == Restarted(old(State()))
    {
      pendingRestarts := pendingRestarts[1..];
      responseAlive := true;
    }

    /** Tell the downed port's /health that it is down; a failure is caught
        and ignored. */
    method InformHealthEndpoint(downedPort: int)
      modifies this
      ensures outbox == old(outbox) + [InstanceDown(downedPort)]
      ensures State() == old(State()).(outbox := outbox)
    {
      outbox := outbox + [InstanceDown(downedPort)];
    }

    /** Probe this instance's /response after a failed POST.  Only status
        exceptions are caught, so `escaped` reports any other exception. */
    method CheckResponseHealth(probe: Outcome) returns (escaped: bool)
      modifies this
      ensures Ending(State(), escaped) == CheckedResponse(old(State()), probe)
    {
      outbox := outbox + [ResponseProbe(serverPort)];
      match probe
      case Ok =>
        responseAlive := true;
        escaped := false;
      case Unreachable =>
        escaped := true;
      case _ =>
        responseAlive := false;
        escaped := false;
    }
  }
}
